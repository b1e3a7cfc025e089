/** `Array.prototype.filter`, and how it distributes over concatenation. */
module JsArrays {

  /** `s.filter(keep)`. */
  function Where<T(!new)>(s: seq<T>, keep: T -> bool): (r: seq<T>)
    ensures |r| <= |s|
    ensures forall x :: x in r <==> x in s && keep(x)
    ensures multiset(r) <= multiset(s)
  {
    if s == [] then []
    else
      assert s == [s[0]] + s[1..];
      (if keep(s[0]) then [s[0]] else []) + Where(s[1..], keep)
  }

  /** Filtering distributes over concatenation. */
  lemma {:induction false} WhereAppend<T(!new)>(u: seq<T>, v: seq<T>, keep: T -> bool)
    ensures Where(u + v, keep) == Where(u, keep) + Where(v, keep)
  {
    if u == [] {
      assert u + v == v;
    } else {
      assert (u + v)[0] == u[0];
      assert (u + v)[1..] == u[1..] + v;
      WhereAppend(u[1..], v, keep);
    }
  }

  /** A filter that keeps every element is the identity. */
  lemma {:induction false} WhereAll<T(!new)>(s: seq<T>, keep: T -> bool)
    requires forall i :: 0 <= i < |s| ==> keep(s[i])
    ensures Where(s, keep) == s
  {
    if s != [] {
      WhereAll(s[1..], keep);
      assert s == [s[0]] + s[1..];
    }
  }

  /** A filter that keeps no element leaves nothing. */
  lemma {:induction false} WhereNone<T(!new)>(s: seq<T>, keep: T -> bool)
    requires forall i :: 0 <= i < |s| ==> !keep(s[i])
    ensures Where(s, keep) == []
  {
    if s != [] {
      WhereNone(s[1..], keep);
    }
  }

  /** Each kept value occurs as often as before, each dropped value not at all. */
  lemma {:induction false} WhereCount<T(!new)>(s: seq<T>, keep: T -> bool, x: T)
    ensures multiset(Where(s, keep))[x] == if keep(x) then multiset(s)[x] else 0
  {
    if s != [] {
      WhereCount(s[1..], keep, x);
      assert s == [s[0]] + s[1..];
    }
  }

  /** Filtering a non-empty sequence: the filtered front, then the last element when it is kept. */
  lemma WhereLast<T(!new)>(s: seq<T>, keep: T -> bool)
    requires s != []
    ensures Where(s, keep) == Where(s[..|s| - 1], keep) + (if keep(s[|s| - 1]) then [s[|s| - 1]] else [])
  {
    var init, x := s[..|s| - 1], s[|s| - 1];
    calc {
      Where(s, keep);
      { assert s == init + [x]; }
      Where(init + [x], keep);
      { WhereAppend(init, [x], keep); }
      Where(init, keep) + Where([x], keep);
      { WhereSingle(x, keep); }
      Where(init, keep) + (if keep(x) then [x] else []);
    }
  }

  /** Filtering a single element keeps it or drops it. */
  lemma WhereSingle<T(!new)>(x: T, keep: T -> bool)
    ensures Where([x], keep) == if keep(x) then [x] else []
  {
    assert [x][1..] == [];
  }
}
