/** The To Branch choices of the Create Manual Transfer form, built from
    the Users sheet: the placeholder, then every Branch user's branch code
    once, in sorted order, without the acting branch's own code. */
module Directory {
  import opened Text
  import opened Transfers

  /** Sorted in Python's string order with no repeats. */
  predicate StrictlySorted(s: seq<string>)
  {
    forall a, b :: 0 <= a < b < |s| ==> LexLess(s[a], s[b])
  }

  /** Puts `x` in its place in a strictly sorted list, unless it is
      already there. */
  function InsertSorted(s: seq<string>, x: string): (r: seq<string>)
    requires StrictlySorted(s)
    ensures StrictlySorted(r)
    ensures forall y :: y in r <==> y in s || y == x
    decreases |s|
  {
    if s == [] then [x]
    else if x == s[0] then s
    else if LexLess(x, s[0]) then
      assert forall b :: 0 < b < |s| ==> LexLess(x, s[b]) by {
        forall b | 0 < b < |s|
          ensures LexLess(x, s[b])
        {
          LexLessTransitive(x, s[0], s[b]);
        }
      }
      [x] + s
    else
      LexLessTotal(x, s[0]);
      var rest := InsertSorted(s[1..], x);
      assert forall y :: y in s <==> y == s[0] || y in s[1..] by {
        assert s == [s[0]] + s[1..];
      }
      assert forall y :: y in rest ==> LexLess(s[0], y) by {
        forall y | y in rest
          ensures LexLess(s[0], y)
        {
          if y != x {
            var k :| 0 <= k < |s[1..]| && s[1..][k] == y;
            assert s[k + 1] == y;
          }
        }
      }
      var r := [s[0]] + rest;
      assert forall a, b :: 0 <= a < b < |r| ==> LexLess(r[a], r[b]) by {
        forall a, b | 0 <= a < b < |r|
          ensures LexLess(r[a], r[b])
        {
          assert r[b] == rest[b - 1] && rest[b - 1] in rest;
          if a > 0 {
            assert r[a] == rest[a - 1];
          }
        }
      }
      r
  }

  predicate IsBranchCode(users: seq<User>, code: string)
  {
    exists u :: u in users && u.role == Branch && u.branchCode == code
  }

  /** `sorted(users_df[users_df["Role"] == "Branch"]["Branch Code"].unique())`. */
  function BranchCodes(users: seq<User>): (r: seq<string>)
    ensures StrictlySorted(r)
    ensures forall c :: c in r <==> IsBranchCode(users, c)
    decreases |users|
  {
    if users == [] then []
    else
      var rest := BranchCodes(users[1..]);
      assert forall u :: u in users <==> u == users[0] || u in users[1..] by {
        assert users == [users[0]] + users[1..];
      }
      if users[0].role == Branch then InsertSorted(rest, users[0].branchCode) else rest
  }

  /** The list without one value; the order of the rest is kept. */
  function Without(s: seq<string>, x: string): (r: seq<string>)
    requires StrictlySorted(s)
    ensures StrictlySorted(r)
    ensures forall y :: y in r <==> y in s && y != x
    decreases |s|
  {
    if s == [] then []
    else
      var rest := Without(s[1..], x);
      assert forall y :: y in s <==> y == s[0] || y in s[1..] by {
        assert s == [s[0]] + s[1..];
      }
      if s[0] == x then rest
      else
        assert forall y :: y in rest ==> LexLess(s[0], y) by {
          forall y | y in rest
            ensures LexLess(s[0], y)
          {
            var k :| 0 <= k < |s[1..]| && s[1..][k] == y;
            assert s[k + 1] == y;
          }
        }
        var r := [s[0]] + rest;
        assert forall a, b :: 0 <= a < b < |r| ==> LexLess(r[a], r[b]) by {
          forall a, b | 0 <= a < b < |r|
            ensures LexLess(r[a], r[b])
          {
            assert r[b] == rest[b - 1] && rest[b - 1] in rest;
            if a > 0 {
              assert r[a] == rest[a - 1];
            }
          }
        }
        r
  }

  /** The options of the To Branch select box: the placeholder first, then
      the other branches' codes, sorted, each once, never the acting
      branch's own code. */
  function ToBranchOptions(users: seq<User>, own: string): (r: seq<string>)
    ensures |r| >= 1 && r[0] == SelectPlaceholder
    ensures StrictlySorted(r[1..])
    ensures forall c :: c in r[1..] <==> IsBranchCode(users, c) && c != own
    ensures own !in r[1..]
  {
    [SelectPlaceholder] + Without(BranchCodes(users), own)
  }
}
