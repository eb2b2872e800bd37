/**
 * Tables as sequences of rows in insertion order: the filtered query, and
 * the check-then-insert and check-then-delete that the grant and revoke
 * operations perform on a join table.
 */
module Rows {

  /** The rows of `s` that `keep` admits, in their original order. */
  function Filter<T(==,!new)>(s: seq<T>, keep: T -> bool): (r: seq<T>)
    ensures forall x :: x in r <==> x in s && keep(x)
    ensures |r| <= |s|
  {
    if s == [] then []
    else if keep(s[0]) then [s[0]] + Filter(s[1..], keep)
    else Filter(s[1..], keep)
  }

  /** Filtering a concatenation filters each part: later rows stay later. */
  lemma {:induction false} FilterAppend<T(!new)>(a: seq<T>, b: seq<T>, keep: T -> bool)
    ensures Filter(a + b, keep) == Filter(a, keep) + Filter(b, keep)
  {
    if a == [] {
      assert a + b == b;
    } else {
      assert (a + b)[0] == a[0];
      assert (a + b)[1..] == a[1..] + b;
      FilterAppend(a[1..], b, keep);
    }
  }

  /** A filter that admits every row returns the table unchanged. */
  lemma {:induction false} FilterKeepsAll<T(!new)>(s: seq<T>, keep: T -> bool)
    requires forall x :: x in s ==> keep(x)
    ensures Filter(s, keep) == s
  {
    if s != [] {
      FilterKeepsAll(s[1..], keep);
    }
  }

  /** No row occurs twice: what a primary key over the whole row guarantees. */
  ghost predicate Distinct<T>(s: seq<T>) {
    forall i, j | 0 <= i < j < |s| :: s[i] != s[j]
  }

  lemma DistinctTail<T>(s: seq<T>)
    requires Distinct(s) && s != []
    ensures Distinct(s[1..]) && s[0] !in s[1..]
  {
    forall i, j | 0 <= i < j < |s[1..]|
      ensures s[1..][i] != s[1..][j]
    {
      assert s[1..][i] == s[i + 1] && s[1..][j] == s[j + 1];
    }
    forall k | 0 <= k < |s[1..]|
      ensures s[1..][k] != s[0]
    {
      assert s[1..][k] == s[k + 1];
    }
  }

  lemma DistinctCons<T>(x: T, s: seq<T>)
    requires Distinct(s) && x !in s
    ensures Distinct([x] + s)
  {
    var t := [x] + s;
    forall i, j | 0 <= i < j < |t|
      ensures t[i] != t[j]
    {
      assert t[j] == s[j - 1];
      if i > 0 {
        assert t[i] == s[i - 1];
      }
    }
  }

  /** Filtering never introduces a repeated row. */
  lemma {:induction false} FilterKeepsDistinct<T(!new)>(s: seq<T>, keep: T -> bool)
    requires Distinct(s)
    ensures Distinct(Filter(s, keep))
  {
    if s != [] {
      DistinctTail(s);
      FilterKeepsDistinct(s[1..], keep);
      if keep(s[0]) {
        DistinctCons(s[0], Filter(s[1..], keep));
      }
    }
  }

  /** In a table without repeated rows, a present row occurs exactly once. */
  lemma {:induction false} DistinctOccursOnce<T>(s: seq<T>, t: T)
    requires Distinct(s) && t in s
    ensures multiset(s)[t] == 1
  {
    DistinctTail(s);
    assert s == [s[0]] + s[1..];
    assert multiset(s) == multiset{s[0]} + multiset(s[1..]);
    if s[0] != t {
      DistinctOccursOnce(s[1..], t);
    }
  }

  /** The row filter of a revoke: every row except `t`. */
  function Differs<T(==,!new)>(t: T): T -> bool {
    (x: T) => x != t
  }

  /** Add `t` unless it is already present (check, then insert). */
  function Grant<T(==,!new)>(s: seq<T>, t: T): (r: seq<T>)
    ensures t in r
    ensures forall x :: x in r <==> x in s || x == t
    ensures t in s ==> r == s
    ensures t !in s ==> |r| == |s| + 1 && r[..|s|] == s && r[|s|] == t
  {
    if t in s then s else s + [t]
  }

  /** Delete `t` if it is present (check, then delete). */
  function Revoke<T(==,!new)>(s: seq<T>, t: T): (r: seq<T>)
    ensures t !in r
    ensures forall x :: x in r <==> x in s && x != t
    ensures t !in s ==> r == s
  {
    if t in s then Filter(s, Differs(t)) else s
  }

  /** A grant keeps a duplicate-free table duplicate-free and stores `t` once. */
  lemma GrantStoresOnce<T(!new)>(s: seq<T>, t: T)
    requires Distinct(s)
    ensures Distinct(Grant(s, t))
    ensures multiset(Grant(s, t))[t] == 1
  {
    var r := Grant(s, t);
    if t !in s {
      forall i, j | 0 <= i < j < |r|
        ensures r[i] != r[j]
      {
        if j == |s| {
          assert r[i] == s[i];
        } else {
          assert r[i] == s[i] && r[j] == s[j];
        }
      }
    }
    DistinctOccursOnce(r, t);
  }

  /** A revoke of a present row removes exactly one row. */
  lemma {:induction false} RevokeDropsOne<T(!new)>(s: seq<T>, t: T)
    requires Distinct(s) && t in s
    ensures |Revoke(s, t)| == |s| - 1
  {
    DistinctTail(s);
    if s[0] == t {
      FilterKeepsAll(s[1..], Differs(t));
    } else {
      RevokeDropsOne(s[1..], t);
    }
  }

  /** A revoke keeps a duplicate-free table duplicate-free. */
  lemma RevokeKeepsDistinct<T(!new)>(s: seq<T>, t: T)
    requires Distinct(s)
    ensures Distinct(Revoke(s, t))
  {
    if t in s {
      FilterKeepsDistinct(s, Differs(t));
    }
  }

  /** Revoking a row just granted restores the table exactly. */
  lemma RevokeUndoesGrant<T(!new)>(s: seq<T>, t: T)
    requires t !in s
    ensures Revoke(Grant(s, t), t) == s
  {
    FilterAppend(s, [t], Differs(t));
    FilterKeepsAll(s, Differs(t));
    assert Filter([t], Differs(t)) == [];
  }

  /** A revoke removes the row from where it stands and keeps the others in order. */
  lemma RevokeKeepsOrder<T(!new)>(a: seq<T>, t: T, b: seq<T>)
    requires t !in a && t !in b
    ensures Revoke(a + [t] + b, t) == a + b
  {
    var keep := Differs(t);
    assert (a + [t] + b)[|a|] == t;
    assert Filter([t], keep) == [] by {
      assert [t][1..] == [];
    }
    calc {
      Revoke(a + [t] + b, t);
      Filter(a + [t] + b, keep);
      { FilterAppend(a + [t], b, keep); }
      Filter(a + [t], keep) + Filter(b, keep);
      { FilterAppend(a, [t], keep); }
      Filter(a, keep) + Filter([t], keep) + Filter(b, keep);
      { FilterKeepsAll(a, keep); FilterKeepsAll(b, keep); }
      a + b;
    }
  }

  /** A repeated grant, and a repeated revoke, leave the table as the first left it. */
  lemma GrantRevokeIdempotent<T(!new)>(s: seq<T>, t: T)
    ensures Grant(Grant(s, t), t) == Grant(s, t)
    ensures Revoke(Revoke(s, t), t) == Revoke(s, t)
  {
  }
}
