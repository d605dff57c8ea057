/** String operations the dashboard relies on: Python's `str.startswith`,
    a case-insensitive substring test, `str.strip`, `str.upper` and the
    code-point order `sorted` uses. Only ASCII letters are case-mapped and
    only ASCII whitespace is stripped. */
module Text {

  /** `s.startswith(prefix)`; the empty prefix matches every string. */
  predicate StartsWith(s: string, prefix: string)
  {
    |prefix| <= |s| && s[..|prefix|] == prefix
  }

  lemma EmptyPrefixMatchesAll(s: string)
    ensures StartsWith(s, "")
  {
  }

  /** Two prefixes of the same length of one string are the same string,
      so distinct three-letter codes never both match. */
  lemma {:induction false} SameLengthPrefixesAgree(s: string, a: string, b: string)
    requires StartsWith(s, a) && StartsWith(s, b) && |a| == |b|
    ensures a == b
  {
    assert a == s[..|a|];
    assert b == s[..|b|];
  }

  /** `p` occurs in `s` starting at position `k`. */
  predicate OccursAt(s: string, p: string, k: int)
  {
    0 <= k <= |s| - |p| && s[k..k + |p|] == p
  }

  /** An occurrence at `k + 1` in `s` is an occurrence at `k` in `s[1..]`. */
  lemma OccursAtShift(s: string, p: string, k: int)
    requires s != [] && 0 <= k
    ensures OccursAt(s, p, k + 1) <==> OccursAt(s[1..], p, k)
  {
    if k + 1 <= |s| - |p| {
      assert s[k + 1..k + 1 + |p|] == s[1..][k..k + |p|];
    }
  }

  /** Does `p` occur in `s` at some position? */
  function Contains(s: string, p: string): (r: bool)
    ensures r <==> exists k :: OccursAt(s, p, k)
    decreases |s|
  {
    if StartsWith(s, p) then
      assert OccursAt(s, p, 0);
      true
    else if s == [] then
      false
    else
      var rest := Contains(s[1..], p);
      assert rest ==> exists k :: OccursAt(s, p, k) by {
        if rest {
          var k :| OccursAt(s[1..], p, k);
          OccursAtShift(s, p, k);
        }
      }
      assert !rest ==> forall k :: !OccursAt(s, p, k) by {
        if !rest {
          forall k
            ensures !OccursAt(s, p, k)
          {
            if k >= 1 {
              OccursAtShift(s, p, k - 1);
            }
          }
        }
      }
      rest
  }

  predicate IsAsciiUpper(c: char) { 'A' <= c <= 'Z' }
  predicate IsAsciiLower(c: char) { 'a' <= c <= 'z' }

  function LowerChar(c: char): (r: char)
    ensures !IsAsciiUpper(r)
    ensures IsAsciiUpper(c) ==> r as int == c as int + 32
    ensures !IsAsciiUpper(c) ==> r == c
  {
    if IsAsciiUpper(c) then (c as int + 32) as char else c
  }

  function UpperChar(c: char): (r: char)
    ensures !IsAsciiLower(r)
    ensures IsAsciiLower(c) ==> r as int == c as int - 32
    ensures !IsAsciiLower(c) ==> r == c
  {
    if IsAsciiLower(c) then (c as int - 32) as char else c
  }

  /** `s.lower()` for ASCII letters. */
  function Lower(s: string): (r: string)
    ensures |r| == |s|
    ensures forall k :: 0 <= k < |s| ==> r[k] == LowerChar(s[k])
  {
    if s == [] then [] else [LowerChar(s[0])] + Lower(s[1..])
  }

  /** `s.upper()` for ASCII letters. */
  function Upper(s: string): (r: string)
    ensures |r| == |s|
    ensures forall k :: 0 <= k < |s| ==> r[k] == UpperChar(s[k])
  {
    if s == [] then [] else [UpperChar(s[0])] + Upper(s[1..])
  }

  /** Upper-casing twice is upper-casing once, so a lookup keyed by
      `region.upper()` gives the same answer for every spelling that
      differs only in ASCII case. */
  lemma UpperIdempotent(s: string)
    ensures Upper(Upper(s)) == Upper(s)
  {
  }

  /** Case-insensitive substring test, as `str.contains(term, case=False)`. */
  predicate ContainsIgnoringCase(s: string, term: string)
  {
    Contains(Lower(s), Lower(term))
  }

  /** Lower-casing an upper-cased string gives the string lower-cased. */
  lemma LowerOfUpper(s: string)
    ensures Lower(Upper(s)) == Lower(s)
  {
    assert forall k :: 0 <= k < |s| ==> LowerChar(UpperChar(s[k])) == LowerChar(s[k]);
  }

  /** The case-insensitive search gives the same answer for a term typed
      in upper case, in lower case or as it is. */
  lemma {:induction false} SearchIgnoresTermCase(s: string, term: string)
    ensures ContainsIgnoringCase(s, Upper(term)) == ContainsIgnoringCase(s, term)
    ensures ContainsIgnoringCase(Upper(s), term) == ContainsIgnoringCase(s, term)
    ensures ContainsIgnoringCase(s, Lower(term)) == ContainsIgnoringCase(s, term)
  {
    LowerOfUpper(term);
    LowerOfUpper(s);
    assert Lower(Lower(term)) == Lower(term);
  }

  /** The characters `str.isspace` accepts in the ASCII range. */
  predicate IsSpace(c: char)
  {
    c == ' ' || c == '\t' || c == '\n' || c == '\r' || c == '\U{B}' || c == '\U{C}'
    || ('\U{1C}' <= c <= '\U{1F}')
  }

  function TrimStart(s: string): (r: string)
    ensures |r| <= |s| && r == s[|s| - |r|..]
    ensures r == [] || !IsSpace(r[0])
    ensures forall k :: 0 <= k < |s| - |r| ==> IsSpace(s[k])
  {
    if s != [] && IsSpace(s[0]) then TrimStart(s[1..]) else s
  }

  function TrimEnd(s: string): (r: string)
    ensures |r| <= |s| && r == s[..|r|]
    ensures r == [] || !IsSpace(r[|r| - 1])
    ensures forall k :: |r| <= k < |s| ==> IsSpace(s[k])
  {
    if s != [] && IsSpace(s[|s| - 1]) then TrimEnd(s[..|s| - 1]) else s
  }

  /** `s` is `r` with only whitespace before and after it. */
  predicate SurroundedBySpace(s: string, r: string, lo: int)
  {
    && OccursAt(s, r, lo)
    && (forall k :: 0 <= k < lo ==> IsSpace(s[k]))
    && (forall k :: lo + |r| <= k < |s| ==> IsSpace(s[k]))
  }

  /** What is left after trimming the front and then the back of `s`
      occurs in `s` where the front trim stopped. */
  lemma {:induction false} TrimmedOccurs(s: string, t: string, r: string)
    requires |t| <= |s| && t == s[|s| - |t|..]
    requires |r| <= |t| && r == t[..|r|]
    ensures OccursAt(s, r, |s| - |t|)
  {
    var lo := |s| - |t|;
    assert r == s[lo..lo + |r|];
  }

  /** Spaces after `r` in the suffix `t` of `s` are spaces of `s`. */
  lemma {:induction false} TrailingSpaces(s: string, t: string, r: string)
    requires |t| <= |s| && t == s[|s| - |t|..] && |r| <= |t|
    requires forall k :: |r| <= k < |t| ==> IsSpace(t[k])
    ensures forall k :: |s| - |t| + |r| <= k < |s| ==> IsSpace(s[k])
  {
    var lo := |s| - |t|;
    forall k | lo + |r| <= k < |s|
      ensures IsSpace(s[k])
    {
      assert s[k] == t[k - lo];
    }
  }

  /** Trimming the front and then the back leaves `s` with only spaces
      around the result. */
  lemma {:induction false} TrimBothEnds(s: string)
    ensures SurroundedBySpace(s, TrimEnd(TrimStart(s)), |s| - |TrimStart(s)|)
  {
    var t := TrimStart(s);
    var r := TrimEnd(t);
    TrimmedOccurs(s, t, r);
    TrailingSpaces(s, t, r);
  }

  /** `s.strip()`: drops leading and trailing whitespace and keeps the
      rest as it is. */
  function Strip(s: string): (r: string)
    ensures r == [] || (!IsSpace(r[0]) && !IsSpace(r[|r| - 1]))
    ensures exists lo :: SurroundedBySpace(s, r, lo)
    ensures r == [] ==> forall k :: 0 <= k < |s| ==> IsSpace(s[k])
  {
    TrimBothEnds(s);
    TrimEnd(TrimStart(s))
  }

  lemma {:induction false} StripIdempotent(s: string)
    ensures Strip(Strip(s)) == Strip(s)
  {
    var r := Strip(s);
    if r != [] {
      assert TrimStart(r) == r;
      assert TrimEnd(r) == r;
    }
  }

  /** Python's string order: code point by code point, a proper prefix
      first. */
  predicate LexLess(a: string, b: string)
  {
    if a == [] then b != []
    else b != [] && (a[0] < b[0] || (a[0] == b[0] && LexLess(a[1..], b[1..])))
  }

  lemma {:induction false} LexLessIrreflexive(a: string)
    ensures !LexLess(a, a)
  {
    if a != [] {
      LexLessIrreflexive(a[1..]);
    }
  }

  lemma {:induction false} LexLessTransitive(a: string, b: string, c: string)
    requires LexLess(a, b) && LexLess(b, c)
    ensures LexLess(a, c)
  {
    if a != [] && a[0] == b[0] && b[0] == c[0] {
      LexLessTransitive(a[1..], b[1..], c[1..]);
    }
  }

  lemma {:induction false} LexLessTotal(a: string, b: string)
    requires a != b
    ensures LexLess(a, b) || LexLess(b, a)
  {
    if a != [] && b != [] && a[0] == b[0] {
      assert a == [a[0]] + a[1..];
      assert b == [b[0]] + b[1..];
      LexLessTotal(a[1..], b[1..]);
    }
  }
}
