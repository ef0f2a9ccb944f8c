/** Python string operations the scripts rely on, stated on `seq<char>`:
    `str.strip()`, the substring test `in`, `str.lower()` (ASCII letters only),
    `str.split(sep)` and `sep.join(parts)`. */
module Text {

  /** The characters for which Python's `str.isspace()` holds; `str.strip()`
      without arguments removes exactly these from both ends. */
  const PythonWhitespace: set<char> := {
    '\t', '\n', '\U{000B}', '\U{000C}', '\r', '\U{001C}', '\U{001D}', '\U{001E}', '\U{001F}',
    ' ', '\U{0085}', '\U{00A0}', '\U{1680}',
    '\U{2000}', '\U{2001}', '\U{2002}', '\U{2003}', '\U{2004}', '\U{2005}', '\U{2006}',
    '\U{2007}', '\U{2008}', '\U{2009}', '\U{200A}',
    '\U{2028}', '\U{2029}', '\U{202F}', '\U{205F}', '\U{3000}'
  }

  /** Membership in `PythonWhitespace`, written as ranges of code points. */
  predicate IsSpace(c: char) {
    || ('\t' <= c <= '\r') || ('\U{001C}' <= c <= ' ') || c == '\U{0085}' || c == '\U{00A0}' || c == '\U{1680}'
    || ('\U{2000}' <= c <= '\U{200A}') || c == '\U{2028}' || c == '\U{2029}' || c == '\U{202F}' || c == '\U{205F}' || c == '\U{3000}'
  }

  lemma IsSpaceExact(c: char)
    ensures IsSpace(c) <==> c in PythonWhitespace
  {
  }

  predicate AllSpace(s: string) {
    forall i :: 0 <= i < |s| ==> IsSpace(s[i])
  }

  /** `s` with its leading whitespace removed. */
  function StripLeft(s: string): string {
    if s != [] && IsSpace(s[0]) then StripLeft(s[1..]) else s
  }

  /** `StripLeft(s)` is a suffix of `s` after an all-whitespace prefix, and
      does not begin with whitespace. */
  lemma {:induction false} StripLeftSpec(s: string)
    ensures var r := StripLeft(s);
      && |r| <= |s| && r == s[|s| - |r|..]
      && AllSpace(s[..|s| - |r|])
      && (r != [] ==> !IsSpace(r[0]))
  {
    if s != [] && IsSpace(s[0]) {
      StripLeftSpec(s[1..]);
      var r := StripLeft(s);
      assert s[..|s| - |r|] == [s[0]] + s[1..][..|s| - 1 - |r|];
    }
  }

  /** `s` with its trailing whitespace removed. */
  function StripRight(s: string): string {
    if s != [] && IsSpace(s[|s| - 1]) then StripRight(s[..|s| - 1]) else s
  }

  /** `StripRight(s)` is a prefix of `s` before an all-whitespace suffix,
      and does not end with whitespace. */
  lemma {:induction false} StripRightSpec(s: string)
    ensures var r := StripRight(s);
      && |r| <= |s| && r == s[..|r|]
      && AllSpace(s[|r|..])
      && (r != [] ==> !IsSpace(r[|r| - 1]))
  {
    if s != [] && IsSpace(s[|s| - 1]) {
      StripRightSpec(s[..|s| - 1]);
      var r := StripRight(s);
      assert s[|r|..] == s[..|s| - 1][|r|..] + [s[|s| - 1]];
    }
  }

  /** Python's `s.strip()`; `StripSpec` states what it is. */
  function Strip(s: string): string {
    StripLeft(StripRight(s))
  }

  /** `Strip(s)` is the middle part of `s` between a whitespace prefix and a
      whitespace suffix; it begins and ends with a non-whitespace character,
      and is empty exactly when `s` is all whitespace. */
  lemma StripSpec(s: string)
    ensures var r := Strip(s);
      && (r == [] <==> AllSpace(s))
      && (r != [] ==> !IsSpace(r[0]) && !IsSpace(r[|r| - 1]))
      && exists i :: 0 <= i <= |s| && Trimmed(s, r, i)
  {
    StripParts(s);
    StripRightSpec(s);
    StripLeftSpec(StripRight(s));
  }

  /** `r` is `s` less a whitespace prefix of length `i` and a whitespace suffix. */
  predicate Trimmed(s: string, r: string, i: int) {
    0 <= i <= |s| - |r| && r == s[i..i + |r|] && AllSpace(s[..i]) && AllSpace(s[i + |r|..])
  }

  lemma StripParts(s: string)
    ensures var right := StripRight(s); var r := StripLeft(right);
      && Trimmed(s, r, |right| - |r|)
      && (r == [] <==> AllSpace(s))
  {
    StripTrims(s);
    StripEmptyOnlyIfAllSpace(s);
    var right := StripRight(s);
    var r := StripLeft(right);
    StripLeftSpec(right);
    if r != [] {
      assert r[0] == s[|right| - |r|];
    }
  }

  lemma StripTrims(s: string)
    ensures var right := StripRight(s); var r := StripLeft(right);
      Trimmed(s, r, |right| - |r|)
  {
    var right := StripRight(s);
    var r := StripLeft(right);
    StripRightSpec(s);
    StripLeftSpec(right);
    var i := |right| - |r|;
    assert s[..i] == right[..i];
    assert r == s[i..i + |r|];
    assert s[i + |r|..] == s[|right|..];
  }

  lemma StripEmptyOnlyIfAllSpace(s: string)
    ensures StripLeft(StripRight(s)) == [] ==> AllSpace(s)
  {
    var right := StripRight(s);
    StripRightSpec(s);
    StripLeftSpec(right);
    if StripLeft(right) == [] {
      AllSpaceConcat(right, s[|right|..]);
      assert right + s[|right|..] == s;
    }
  }

  lemma AllSpaceConcat(a: string, b: string)
    requires AllSpace(a) && AllSpace(b)
    ensures AllSpace(a + b)
  {
  }

  /** Python's `sub in s` on strings. */
  predicate Contains(s: string, sub: string) {
    exists i :: 0 <= i <= |s| && OccursAt(s, sub, i)
  }

  /** `sub` occurs in `s` starting at index `i`. */
  predicate OccursAt(s: string, sub: string, i: int) {
    0 <= i <= |s| - |sub| && s[i..i + |sub|] == sub
  }

  /** A substring of a substring is a substring. */
  lemma ContainsTransitive(s: string, mid: string, sub: string)
    requires Contains(s, mid) && Contains(mid, sub)
    ensures Contains(s, sub)
  {
    var i :| 0 <= i <= |s| && OccursAt(s, mid, i);
    var j :| 0 <= j <= |mid| && OccursAt(mid, sub, j);
    forall k | 0 <= k < |sub| ensures s[i + j + k] == sub[k] {
      assert sub[k] == mid[j + k];
      assert mid[j + k] == s[i + j + k];
    }
    assert s[i + j..i + j + |sub|] == sub;
    assert OccursAt(s, sub, i + j);
  }

  function LowerChar(c: char): char {
    if 'A' <= c <= 'Z' then (c as int - 'A' as int + 'a' as int) as char else c
  }

  /** `s.lower()` for ASCII letters; every other character is kept. */
  function Lower(s: string): (r: string)
    ensures |r| == |s|
    ensures forall i :: 0 <= i < |s| ==> r[i] == LowerChar(s[i])
  {
    seq(|s|, i requires 0 <= i < |s| => LowerChar(s[i]))
  }

  /** Lowering commutes with taking a slice. */
  lemma LowerSlice(s: string, i: nat, j: nat)
    requires i <= j <= |s|
    ensures Lower(s)[i..j] == Lower(s[i..j])
  {
  }

  /** The index of the first character of `s` that belongs to `seps`. */
  function IndexOfAny(s: string, seps: set<char>): (i: nat)
    requires exists k :: 0 <= k < |s| && s[k] in seps
    ensures i < |s| && s[i] in seps
    ensures forall k :: 0 <= k < i ==> s[k] !in seps
  {
    if s[0] in seps then 0
    else
      assert exists k :: 0 <= k < |s[1..]| && s[1..][k] in seps by {
        var k :| 0 <= k < |s| && s[k] in seps;
        assert s[1..][k - 1] == s[k];
      }
      1 + IndexOfAny(s[1..], seps)
  }

  predicate HasAny(s: string, seps: set<char>) {
    exists k :: 0 <= k < |s| && s[k] in seps
  }

  /** `s` cut at every character of `seps`, the separators dropped; with a
      single separator this is Python's `s.split(sep)`. There is always at
      least one part, and no part holds a separator. */
  function Split(s: string, seps: set<char>): (parts: seq<string>)
    ensures |parts| >= 1
    ensures |parts| == 1 <==> !HasAny(s, seps)
    ensures forall k :: 0 <= k < |parts| ==> !HasAny(parts[k], seps)
    decreases |s|
  {
    if !HasAny(s, seps) then [s]
    else
      var i := IndexOfAny(s, seps);
      [s[..i]] + Split(s[i + 1..], seps)
  }

  /** Python's `sep.join(parts)`. */
  function Join(parts: seq<string>, sep: string): (r: string)
    decreases |parts|
  {
    if parts == [] then ""
    else if |parts| == 1 then parts[0]
    else parts[0] + sep + Join(parts[1..], sep)
  }

  /** Joining one more part adds the separator and the part at the end. */
  lemma {:induction false} JoinSnoc(parts: seq<string>, x: string, sep: string)
    requires parts != []
    ensures Join(parts + [x], sep) == Join(parts, sep) + sep + x
    decreases |parts|
  {
    if |parts| == 1 {
      assert parts + [x] == [parts[0], x];
      assert [parts[0], x][1..] == [x];
    } else {
      assert (parts + [x])[1..] == parts[1..] + [x];
      JoinSnoc(parts[1..], x, sep);
    }
  }

  /** Splitting on one character and joining with it gives back the string. */
  lemma {:induction false} JoinSplit(s: string, c: char)
    ensures Join(Split(s, {c}), [c]) == s
    decreases |s|
  {
    if HasAny(s, {c}) {
      var i := IndexOfAny(s, {c});
      var tail := s[i + 1..];
      SplitAtFirst(s, c);
      JoinSplit(tail, c);
      JoinCons(s[..i], Split(tail, {c}), [c]);
    }
  }

  /** One step of `Split`: the part before the first separator, then the rest. */
  lemma SplitAtFirst(s: string, c: char)
    requires HasAny(s, {c})
    ensures var i := IndexOfAny(s, {c});
      && Split(s, {c}) == [s[..i]] + Split(s[i + 1..], {c})
      && s == s[..i] + [c] + s[i + 1..]
  {
  }

  /** Joining a first part in front of at least one more. */
  lemma JoinCons(x: string, parts: seq<string>, sep: string)
    requires parts != []
    ensures Join([x] + parts, sep) == x + sep + Join(parts, sep)
  {
    assert ([x] + parts)[1..] == parts;
  }

  /** Joining parts that hold no separator and splitting again gives back
      the parts. */
  lemma {:induction false} SplitJoin(parts: seq<string>, c: char)
    requires parts != []
    requires forall k :: 0 <= k < |parts| ==> !HasAny(parts[k], {c})
    ensures Split(Join(parts, [c]), {c}) == parts
    decreases |parts|
  {
    var s := Join(parts, [c]);
    if |parts| == 1 {
      assert !HasAny(s, {c});
    } else {
      var rest := Join(parts[1..], [c]);
      assert s == parts[0] + [c] + rest;
      assert s[|parts[0]|] == c;
      assert HasAny(s, {c});
      var i := IndexOfAny(s, {c});
      assert forall k :: 0 <= k < |parts[0]| ==> s[k] == parts[0][k];
      assert i == |parts[0]|;
      assert s[..i] == parts[0];
      assert s[i + 1..] == rest;
      SplitJoin(parts[1..], c);
    }
  }
}
