/** Selecting the records of a list whose date lies in an inclusive
    window, and summing a per-record value over them. Every report
    category uses the same selection; `dateOf` reads a record's date. */
module DateWindow {
  import opened Dates

  /** The records dated in [start, end], in list order. */
  function Within<R>(rs: seq<R>, dateOf: R -> Date, start: Date, end: Date): (kept: seq<R>)
    ensures |kept| <= |rs|
    ensures forall k :: 0 <= k < |kept| ==> kept[k] in rs && InRange(dateOf(kept[k]), start, end)
  {
    if rs == [] then []
    else (if InRange(dateOf(rs[0]), start, end) then [rs[0]] else []) + Within(rs[1..], dateOf, start, end)
  }

  /** Selection distributes over concatenation: the kept records of a
      list come out in the order the list holds them. */
  lemma {:induction false} WithinAppend<R>(a: seq<R>, b: seq<R>, dateOf: R -> Date, start: Date, end: Date)
    ensures Within(a + b, dateOf, start, end) == Within(a, dateOf, start, end) + Within(b, dateOf, start, end)
  {
    if a == [] {
      assert a + b == b;
    } else {
      assert (a + b)[1..] == a[1..] + b;
      WithinAppend(a[1..], b, dateOf, start, end);
    }
  }

  /** Extending the scanned prefix by one record keeps that record exactly
      when its date is in the window. */
  lemma WithinPrefix<R>(rs: seq<R>, i: nat, dateOf: R -> Date, start: Date, end: Date)
    requires i < |rs|
    ensures Within(rs[..i + 1], dateOf, start, end)
         == Within(rs[..i], dateOf, start, end) + (if InRange(dateOf(rs[i]), start, end) then [rs[i]] else [])
  {
    assert rs[..i + 1] == rs[..i] + [rs[i]];
    WithinAppend(rs[..i], [rs[i]], dateOf, start, end);
    assert [rs[i]][1..] == [];
  }

  /** Each record in the window is kept as many times as the list holds it,
      each record outside is dropped: no record is lost, merged or added. */
  lemma {:induction false} WithinMultiplicity<R>(rs: seq<R>, dateOf: R -> Date, start: Date, end: Date, x: R)
    ensures multiset(Within(rs, dateOf, start, end))[x]
         == if InRange(dateOf(x), start, end) then multiset(rs)[x] else 0
  {
    if rs != [] {
      WithinMultiplicity(rs[1..], dateOf, start, end, x);
      assert rs == [rs[0]] + rs[1..];
    }
  }

  /** A record is kept iff the list holds it and its date is in the window. */
  lemma WithinMembership<R>(rs: seq<R>, dateOf: R -> Date, start: Date, end: Date, x: R)
    ensures x in Within(rs, dateOf, start, end) <==> x in rs && InRange(dateOf(x), start, end)
  {
    WithinMultiplicity(rs, dateOf, start, end, x);
  }

  /** With every record in the window nothing is dropped; with none in it
      nothing is kept. */
  lemma {:induction false} WithinExtremes<R>(rs: seq<R>, dateOf: R -> Date, start: Date, end: Date)
    ensures (forall r :: r in rs ==> InRange(dateOf(r), start, end)) ==> Within(rs, dateOf, start, end) == rs
    ensures (forall r :: r in rs ==> !InRange(dateOf(r), start, end)) ==> Within(rs, dateOf, start, end) == []
  {
    if rs != [] {
      assert forall r :: r in rs[1..] ==> r in rs;
      WithinExtremes(rs[1..], dateOf, start, end);
      assert rs == [rs[0]] + rs[1..];
    }
  }

  /** The sum of a per-record value over a list. */
  function Sum<R>(rs: seq<R>, value: R -> int): int {
    if rs == [] then 0 else value(rs[0]) + Sum(rs[1..], value)
  }

  lemma {:induction false} SumAppend<R>(a: seq<R>, b: seq<R>, value: R -> int)
    ensures Sum(a + b, value) == Sum(a, value) + Sum(b, value)
  {
    if a == [] {
      assert a + b == b;
    } else {
      assert (a + b)[1..] == a[1..] + b;
      SumAppend(a[1..], b, value);
    }
  }

  /** Reference aggregate: every record of the list visited, contributing
      its value when dated in the window and nothing otherwise. */
  function MaskedSum<R>(rs: seq<R>, dateOf: R -> Date, value: R -> int, start: Date, end: Date): int {
    if rs == [] then 0
    else (if InRange(dateOf(rs[0]), start, end) then value(rs[0]) else 0)
         + MaskedSum(rs[1..], dateOf, value, start, end)
  }

  /** Summing over the kept records is summing over exactly the records in
      the window; an empty window sums to zero. */
  lemma {:induction false} SumWithinIsMaskedSum<R>(rs: seq<R>, dateOf: R -> Date, value: R -> int, start: Date, end: Date)
    ensures Sum(Within(rs, dateOf, start, end), value) == MaskedSum(rs, dateOf, value, start, end)
    ensures (forall r :: r in rs ==> !InRange(dateOf(r), start, end)) ==> Sum(Within(rs, dateOf, start, end), value) == 0
  {
    if rs != [] {
      var head := if InRange(dateOf(rs[0]), start, end) then [rs[0]] else [];
      SumAppend(head, Within(rs[1..], dateOf, start, end), value);
      assert forall r :: r in rs[1..] ==> r in rs;
      SumWithinIsMaskedSum(rs[1..], dateOf, value, start, end);
    }
  }

  /** Every value non-negative makes every partial sum non-negative. */
  lemma {:induction false} SumNonNegative<R>(rs: seq<R>, value: R -> int)
    requires forall r :: r in rs ==> value(r) >= 0
    ensures Sum(rs, value) >= 0
  {
    if rs != [] {
      assert forall r :: r in rs[1..] ==> r in rs;
      SumNonNegative(rs[1..], value);
    }
  }
}
