/** The relational operations the controllers issue through the ORM, over a
    table kept as a sequence of rows in insertion order (which is primary-key
    order, ids being handed out increasingly): `WHERE` selects rows, `First`
    takes the lowest-id match, `Count` is the length of a selection, and
    `UPDATE … WHERE` rewrites the matching rows in place. */
module Query {
  import opened Common

  /** The rows of `s` that satisfy `p`, in table order. */
  function Where<T(!new)>(s: seq<T>, p: T -> bool): (r: seq<T>)
    ensures |r| <= |s|
    ensures forall x :: x in r <==> x in s && p(x)
    decreases |s|
  {
    if s == [] then []
    else
      var last := s[|s| - 1];
      assert s == s[..|s| - 1] + [last];
      Where(s[..|s| - 1], p) + (if p(last) then [last] else [])
  }

  /** `First`: the earliest row, or None when the selection is empty. */
  function First<T(!new)>(s: seq<T>): (r: Option<T>)
    ensures r.Some? <==> s != []
    ensures r.Some? ==> r.value in s
  {
    if s == [] then None else Some(s[0])
  }

  /** `UPDATE … SET f WHERE p`: every row satisfying `p` becomes `f` of
      itself, every other row stays, and the order is kept. */
  function Update<T(!new)>(s: seq<T>, p: T -> bool, f: T -> T): (r: seq<T>)
    ensures |r| == |s|
  {
    seq(|s|, i requires 0 <= i < |s| => if p(s[i]) then f(s[i]) else s[i])
  }

  /** Appending a row adds it to every selection it satisfies and to no other. */
  lemma WhereAppend<T(!new)>(s: seq<T>, x: T, p: T -> bool)
    ensures Where(s + [x], p) == Where(s, p) + (if p(x) then [x] else [])
  {
    assert (s + [x])[..|s|] == s;
  }

  /** A selection that no row satisfies is empty. */
  lemma WhereNone<T(!new)>(s: seq<T>, p: T -> bool)
    requires forall x :: x in s ==> !p(x)
    ensures Where(s, p) == []
  {
  }

  /** Two selections can be applied in either order. */
  lemma {:induction false} WhereCommutes<T(!new)>(s: seq<T>, p: T -> bool, q: T -> bool)
    ensures Where(Where(s, p), q) == Where(Where(s, q), p)
    decreases |s|
  {
    if s != [] {
      var init, last := s[..|s| - 1], s[|s| - 1];
      assert s == init + [last];
      WhereCommutes(init, p, q);
      WhereAppend(init, last, p);
      WhereAppend(init, last, q);
      if p(last) {
        WhereAppend(Where(init, p), last, q);
      } else {
        assert Where(s, p) == Where(init, p);
      }
      if q(last) {
        WhereAppend(Where(init, q), last, p);
      } else {
        assert Where(s, q) == Where(init, q);
      }
    }
  }

  /** A stricter condition selects no more rows than a looser one. */
  lemma {:induction false} WhereStricter<T(!new)>(s: seq<T>, p: T -> bool, q: T -> bool)
    requires forall x :: p(x) ==> q(x)
    ensures |Where(s, p)| <= |Where(s, q)|
    decreases |s|
  {
    if s != [] {
      var init, last := s[..|s| - 1], s[|s| - 1];
      assert s == init + [last];
      WhereStricter(init, p, q);
      WhereAppend(init, last, p);
      WhereAppend(init, last, q);
    }
  }

  /** Updating one more row at the end of a table. */
  lemma UpdateAppend<T(!new)>(s: seq<T>, x: T, p: T -> bool, f: T -> T)
    ensures Update(s + [x], p, f) == Update(s, p, f) + [if p(x) then f(x) else x]
  {
    var l, r := Update(s + [x], p, f), Update(s, p, f) + [if p(x) then f(x) else x];
    assert |l| == |r|;
    forall i | 0 <= i < |l| ensures l[i] == r[i] {
      if i < |s| {
        assert (s + [x])[i] == s[i];
      }
    }
  }

  /** An update that keeps every row's membership in `q` commutes with the
      selection by `q`: the selected rows are the old selection, updated. */
  lemma {:induction false} WhereOfUpdate<T(!new)>(s: seq<T>, p: T -> bool, f: T -> T, q: T -> bool)
    requires forall x :: q(f(x)) == q(x)
    ensures Where(Update(s, p, f), q) == Update(Where(s, q), p, f)
    decreases |s|
  {
    if s != [] {
      var init, last := s[..|s| - 1], s[|s| - 1];
      assert s == init + [last];
      var g := if p(last) then f(last) else last;
      UpdateAppend(init, last, p, f);
      WhereAppend(Update(init, p, f), g, q);
      WhereOfUpdate(init, p, f, q);
      WhereAppend(init, last, q);
      assert q(g) == q(last);
      if q(last) {
        UpdateAppend(Where(init, q), last, p, f);
      } else {
        assert Where(s, q) == Where(init, q);
      }
    }
  }

  /** An update after which a row can only leave the selection by `q`, never
      enter it, selects no more rows than before. */
  lemma {:induction false} WhereOfUpdateShrinks<T(!new)>(s: seq<T>, p: T -> bool, f: T -> T, q: T -> bool)
    requires forall x :: q(f(x)) ==> q(x)
    ensures |Where(Update(s, p, f), q)| <= |Where(s, q)|
    decreases |s|
  {
    if s != [] {
      var init, last := s[..|s| - 1], s[|s| - 1];
      assert s == init + [last];
      var g := if p(last) then f(last) else last;
      UpdateAppend(init, last, p, f);
      WhereAppend(Update(init, p, f), g, q);
      WhereOfUpdateShrinks(init, p, f, q);
      WhereAppend(init, last, q);
    }
  }

  /** A selection of at most one row that contains `x` is exactly `[x]`. */
  lemma OnlyMatch<T(!new)>(s: seq<T>, p: T -> bool, x: T)
    requires |Where(s, p)| <= 1 && x in s && p(x)
    ensures Where(s, p) == [x]
  {
    assert x in Where(s, p);
  }

  /** Narrowing a table first never adds rows to a later selection. */
  lemma WhereOfWhere<T(!new)>(s: seq<T>, p: T -> bool, q: T -> bool)
    ensures |Where(Where(s, p), q)| <= |Where(s, q)|
  {
    WhereCommutes(s, p, q);
  }

  /** A condition and its negation split a table. */
  lemma {:induction false} WherePartition<T(!new)>(s: seq<T>, p: T -> bool, q: T -> bool)
    requires forall x :: q(x) == !p(x)
    ensures |Where(s, p)| + |Where(s, q)| == |s|
    decreases |s|
  {
    if s != [] {
      var init, last := s[..|s| - 1], s[|s| - 1];
      assert s == init + [last];
      WherePartition(init, p, q);
      WhereAppend(init, last, p);
      WhereAppend(init, last, q);
    }
  }

  /** An update whose condition no row meets changes nothing. */
  lemma UpdateNone<T(!new)>(s: seq<T>, p: T -> bool, f: T -> T)
    requires forall x :: x in s ==> !p(x)
    ensures Update(s, p, f) == s
  {
  }

  /** Every row of an update is an old row, or `f` of an old row that matched. */
  lemma UpdateMembers<T(!new)>(s: seq<T>, p: T -> bool, f: T -> T, x: T)
    requires x in Update(s, p, f)
    ensures (x in s && !p(x)) || exists y :: y in s && p(y) && x == f(y)
  {
    var i :| 0 <= i < |s| && Update(s, p, f)[i] == x;
    assert s[i] in s;
  }

  /** An update that moves no updated row into or out of the selection by
      `q` keeps its size. */
  lemma {:induction false} CountOfUpdate<T(!new)>(s: seq<T>, p: T -> bool, f: T -> T, q: T -> bool)
    requires forall x :: x in s && p(x) ==> q(f(x)) == q(x)
    ensures |Where(Update(s, p, f), q)| == |Where(s, q)|
    decreases |s|
  {
    if s != [] {
      var init, last := s[..|s| - 1], s[|s| - 1];
      assert s == init + [last];
      var g := if p(last) then f(last) else last;
      UpdateAppend(init, last, p, f);
      WhereAppend(Update(init, p, f), g, q);
      assert forall x :: x in init ==> x in s;
      CountOfUpdate(init, p, f, q);
      WhereAppend(init, last, q);
    }
  }

  /** Selecting from two runs of rows selects from each. */
  lemma {:induction false} WhereConcat<T(!new)>(a: seq<T>, b: seq<T>, p: T -> bool)
    ensures Where(a + b, p) == Where(a, p) + Where(b, p)
    decreases |b|
  {
    if b == [] {
      assert a + b == a;
    } else {
      var init, last := b[..|b| - 1], b[|b| - 1];
      assert b == init + [last];
      assert a + b == (a + init) + [last];
      WhereConcat(a, init, p);
      WhereAppend(a + init, last, p);
      WhereAppend(init, last, p);
    }
  }

  /** A selection every row satisfies is the whole table. */
  lemma {:induction false} WhereAll<T(!new)>(s: seq<T>, p: T -> bool)
    requires forall x :: x in s ==> p(x)
    ensures Where(s, p) == s
    decreases |s|
  {
    if s != [] {
      var init, last := s[..|s| - 1], s[|s| - 1];
      assert s == init + [last];
      assert forall x :: x in init ==> x in s;
      WhereAll(init, p);
      WhereAppend(init, last, p);
    }
  }

  /** An update that never moves a row into or out of its own condition
      leaves the rows outside it as they were. */
  lemma UpdateLeavesOthers<T(!new)>(s: seq<T>, p: T -> bool, f: T -> T, q: T -> bool)
    requires forall x :: q(x) == !p(x)
    requires forall x :: p(f(x)) == p(x)
    ensures Where(Update(s, p, f), q) == Where(s, q)
  {
    WhereOfUpdate(s, p, f, q);
    UpdateNone(Where(s, q), p, f);
  }
}
