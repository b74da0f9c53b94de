/**
 * The few pandas operations the core relies on, stated once over sequences of
 * records: filtering, left merges, group-by sums and outer merges of keyed
 * numeric columns.  Row order of group-by and outer-merge results is not
 * modelled (pandas sorts the keys); what is modelled is which keys appear and
 * what value each carries.
 */
module Frames {
  import opened Wrappers

  /** One row of a keyed numeric table (a group-by result or a zone matrix). */
  datatype Entry<K> = Entry(key: K, value: real)

  /** A missing number counts as zero, as pandas' `sum` (skipna) and `fillna(0)` do. */
  function OrZero(x: Option<real>): real
  {
    x.GetOr(0.0)
  }

  /** Keeps the rows `keep` accepts, in order (a boolean mask). */
  function Filter<T(!new)>(s: seq<T>, keep: T -> bool): (r: seq<T>)
    ensures |r| <= |s|
    ensures forall x :: x in r <==> x in s && keep(x)
  {
    if s == [] then [] else (if keep(s[0]) then [s[0]] else []) + Filter(s[1..], keep)
  }

  /** The rows of `right` that a left-merge key test pairs with `l`, in `right`'s order. */
  function Matches<L, R(!new)>(l: L, right: seq<R>, hit: (L, R) -> bool): (r: seq<R>)
    ensures |r| <= |right|
    ensures forall x :: x in r <==> x in right && hit(l, x)
  {
    if right == [] then []
    else (if hit(l, right[0]) then [right[0]] else []) + Matches(l, right[1..], hit)
  }

  /** The first row `right` pairs with `l`, if any. */
  function FirstMatch<L, R(!new)>(l: L, right: seq<R>, hit: (L, R) -> bool): (r: Option<R>)
    ensures r.None? <==> Matches(l, right, hit) == []
    ensures r.Some? ==> r.value in right && hit(l, r.value)
  {
    var ms := Matches(l, right, hit);
    if ms == [] then None else Some(ms[0])
  }

  /** Two key tests that agree on every row of `right` pick the same rows. */
  lemma {:induction false} SameMatches<L, M, R(!new)>(l: L, m: M, right: seq<R>, h1: (L, R) -> bool, h2: (M, R) -> bool)
    requires forall r :: r in right ==> h1(l, r) == h2(m, r)
    ensures Matches(l, right, h1) == Matches(m, right, h2)
  {
    if right != [] {
      SameMatches(l, m, right[1..], h1, h2);
    }
  }

  /** One output row per partner of `l`. */
  function EachPartner<L, R, O>(l: L, ms: seq<R>, make: (L, Option<R>) -> O): seq<O>
  {
    if ms == [] then [] else [make(l, Some(ms[0]))] + EachPartner(l, ms[1..], make)
  }

  /** The output rows one left row yields in a left merge. */
  function Joined<L, R, O>(l: L, ms: seq<R>, make: (L, Option<R>) -> O): seq<O>
  {
    if ms == [] then [make(l, None)] else EachPartner(l, ms, make)
  }

  /**
   * `left.merge(right, how="left")`: every left row is kept; it yields one output
   * row per matching right row (in right's order), or one row with the right
   * columns missing when nothing matches.
   */
  function LeftJoin<L, R(!new), O>(left: seq<L>, right: seq<R>, hit: (L, R) -> bool, make: (L, Option<R>) -> O): (out: seq<O>)
    ensures |out| >= |left|
  {
    if left == [] then []
    else Joined(left[0], Matches(left[0], right, hit), make) + LeftJoin(left[1..], right, hit, make)
  }

  /** When no left row has two partners, a left merge is row-for-row. */
  lemma {:induction false} LeftJoinOneToOne<L, R(!new), O>(left: seq<L>, right: seq<R>, hit: (L, R) -> bool, make: (L, Option<R>) -> O)
    requires forall i :: 0 <= i < |left| ==> |Matches(left[i], right, hit)| <= 1
    ensures |LeftJoin(left, right, hit, make)| == |left|
    ensures forall i :: 0 <= i < |left| ==>
      LeftJoin(left, right, hit, make)[i] == make(left[i], FirstMatch(left[i], right, hit))
  {
    if left != [] {
      LeftJoinOneToOne(left[1..], right, hit, make);
      var out := LeftJoin(left, right, hit, make);
      var rest := LeftJoin(left[1..], right, hit, make);
      var ms := Matches(left[0], right, hit);
      assert out == Joined(left[0], ms, make) + rest;
      if ms != [] {
        assert ms[1..] == [];
        assert EachPartner(left[0], ms, make) == [make(left[0], Some(ms[0]))];
      }
      assert Joined(left[0], ms, make) == [make(left[0], FirstMatch(left[0], right, hit))];
      forall i | 0 <= i < |left|
        ensures out[i] == make(left[i], FirstMatch(left[i], right, hit))
      {
        if i > 0 {
          assert out[i] == rest[i - 1];
          assert left[i] == left[1..][i - 1];
        }
      }
    }
  }

  /** Every row a left merge can produce satisfies `ok`, so every row it does produce does. */
  lemma {:induction false} LeftJoinAll<L, R(!new), O>(left: seq<L>, right: seq<R>, hit: (L, R) -> bool, make: (L, Option<R>) -> O, ok: O -> bool)
    requires forall l :: l in left && Matches(l, right, hit) == [] ==> ok(make(l, None))
    requires forall l, r :: l in left && r in right && hit(l, r) ==> ok(make(l, Some(r)))
    ensures forall o :: o in LeftJoin(left, right, hit, make) ==> ok(o)
  {
    if left != [] {
      LeftJoinAll(left[1..], right, hit, make, ok);
      var ms := Matches(left[0], right, hit);
      if ms != [] {
        EachPartnerAll(left[0], ms, make, ok);
      }
    }
  }

  /** No two rows of `s` share a lookup key (a lookup table without duplicates). */
  predicate UniqueBy<R, K(==)>(s: seq<R>, key: R -> K)
  {
    forall i, j :: 0 <= i < j < |s| ==> key(s[i]) != key(s[j])
  }

  /** A merge on a key column pairs a row with at most one row of a duplicate-free lookup. */
  lemma {:induction false} MatchesUnique<L, R(!new), K>(l: L, right: seq<R>, hit: (L, R) -> bool, key: R -> K, c: K)
    requires UniqueBy(right, key)
    requires forall r :: r in right && hit(l, r) ==> key(r) == c
    ensures |Matches(l, right, hit)| <= 1
  {
    if right != [] {
      var rest := right[1..];
      assert UniqueBy(rest, key) by {
        forall i, j | 0 <= i < j < |rest|
          ensures key(rest[i]) != key(rest[j])
        {
          assert rest[i] == right[i + 1] && rest[j] == right[j + 1];
        }
      }
      MatchesUnique(l, rest, hit, key, c);
      if hit(l, right[0]) {
        forall j | 0 <= j < |rest|
          ensures !hit(l, rest[j])
        {
          assert rest[j] == right[j + 1];
        }
        MatchesNone(l, rest, hit);
      }
    }
  }

  lemma {:induction false} MatchesNone<L, R(!new)>(l: L, right: seq<R>, hit: (L, R) -> bool)
    requires forall j :: 0 <= j < |right| ==> !hit(l, right[j])
    ensures Matches(l, right, hit) == []
  {
    if right != [] {
      MatchesNone(l, right[1..], hit);
    }
  }

  /** The present values of a column of optional values, in order. */
  function Present<T(!new)>(s: seq<Option<T>>): (r: seq<T>)
    ensures |r| <= |s|
  {
    if s == [] then [] else (if s[0].Some? then [s[0].value] else []) + Present(s[1..])
  }

  lemma {:induction false} PresentMember<T(!new)>(s: seq<Option<T>>, x: T)
    requires x in Present(s)
    ensures Some(x) in s
  {
    if !s[0].Some? || s[0].value != x {
      PresentMember(s[1..], x);
    }
  }

  lemma {:induction false} PresentHas<T(!new)>(s: seq<Option<T>>, x: T)
    requires Some(x) in s
    ensures x in Present(s)
  {
    if s[0] != Some(x) {
      PresentHas(s[1..], x);
    }
  }

  lemma {:induction false} PresentConcat<T(!new)>(a: seq<Option<T>>, b: seq<Option<T>>)
    ensures Present(a + b) == Present(a) + Present(b)
  {
    if a != [] {
      assert (a + b)[1..] == a[1..] + b;
      PresentConcat(a[1..], b);
    } else {
      assert a + b == b;
    }
  }

  lemma {:induction false} EachPartnerAll<L, R, O>(l: L, ms: seq<R>, make: (L, Option<R>) -> O, ok: O -> bool)
    requires forall r :: r in ms ==> ok(make(l, Some(r)))
    ensures forall o :: o in EachPartner(l, ms, make) ==> ok(o)
  {
    if ms != [] {
      EachPartnerAll(l, ms[1..], make, ok);
    }
  }

  /**
   * `drop_duplicates()` on a column: each value once, at its first occurrence.
   */
  function DropDuplicates<T(==,!new)>(s: seq<T>): (r: seq<T>)
    ensures forall x :: x in r <==> x in s
    ensures |r| <= |s|
    ensures forall i, j :: 0 <= i < j < |r| ==> r[i] != r[j]
  {
    if s == [] then []
    else
      var u := DropDuplicates(s[..|s| - 1]);
      assert forall x :: x in s <==> x in s[..|s| - 1] || x == s[|s| - 1] by {
        assert s == s[..|s| - 1] + [s[|s| - 1]];
      }
      if s[|s| - 1] in u then u else u + [s[|s| - 1]]
  }

  // ----- keyed numeric tables -----

  function KeySet<K(==)>(s: seq<Entry<K>>): set<K>
  {
    if s == [] then {} else {s[0].key} + KeySet(s[1..])
  }

  /** The key set of a table is the set of its rows' keys. */
  lemma {:induction false} KeySetMember<K>(s: seq<Entry<K>>, k: K)
    requires k in KeySet(s)
    ensures exists e :: e in s && e.key == k
  {
    if s[0].key != k {
      KeySetMember(s[1..], k);
      var e: Entry<K> :| e in s[1..] && e.key == k;
      assert e in s;
    }
  }

  /** Membership in the key set, by row index. */
  lemma {:induction false} KeySetIndex<K>(s: seq<Entry<K>>, k: K)
    ensures k in KeySet(s) <==> exists n :: 0 <= n < |s| && s[n].key == k
  {
    if s != [] {
      KeySetIndex(s[1..], k);
      if k in KeySet(s[1..]) {
        var n :| 0 <= n < |s[1..]| && s[1..][n].key == k;
        assert s[n + 1].key == k;
      }
      if exists n :: 0 <= n < |s| && s[n].key == k {
        var n :| 0 <= n < |s| && s[n].key == k;
        if n > 0 {
          assert s[1..][n - 1].key == k;
        }
      }
    }
  }

  /** No key occurs twice (what a group-by result guarantees). */
  predicate DistinctKeys<K(==)>(s: seq<Entry<K>>)
  {
    s == [] || (s[0].key !in KeySet(s[1..]) && DistinctKeys(s[1..]))
  }

  /** Keys that differ row by row are distinct. */
  lemma {:induction false} DistinctByIndex<K>(s: seq<Entry<K>>)
    requires forall i, j :: 0 <= i < j < |s| ==> s[i].key != s[j].key
    ensures DistinctKeys(s)
  {
    if s != [] {
      var t := s[1..];
      forall i, j | 0 <= i < j < |t|
        ensures t[i].key != t[j].key
      {
        assert t[i] == s[i + 1] && t[j] == s[j + 1];
      }
      DistinctByIndex(t);
      forall n | 0 <= n < |t|
        ensures t[n].key != s[0].key
      {
        assert t[n] == s[n + 1];
      }
      KeySetIndex(t, s[0].key);
    }
  }

  /** Every key of the grouped present rows is the key of one of the rows. */
  lemma GroupedKeysFrom<K(!new)>(o: seq<Option<Entry<K>>>, p: K -> bool)
    requires forall x :: x in o && x.Some? ==> p(x.value.key)
    ensures forall k :: k in KeySet(GroupSum(Present(o))) ==> p(k)
  {
    forall k | k in KeySet(GroupSum(Present(o)))
      ensures p(k)
    {
      KeySetMember(Present(o), k);
      var e: Entry<K> :| e in Present(o) && e.key == k;
      PresentMember(o, e);
    }
  }

  /** Total of the value column. */
  function SumValues<K(==)>(s: seq<Entry<K>>): real
  {
    if s == [] then 0.0 else s[0].value + SumValues(s[1..])
  }

  /** Total of the values under key `k` (the cell's value when keys are distinct, 0 when absent). */
  function ValueAt<K(==)>(s: seq<Entry<K>>, k: K): real
  {
    if s == [] then 0.0 else (if s[0].key == k then s[0].value else 0.0) + ValueAt(s[1..], k)
  }

  lemma {:induction false} ValueAtAbsent<K>(s: seq<Entry<K>>, k: K)
    requires k !in KeySet(s)
    ensures ValueAt(s, k) == 0.0
  {
    if s != [] {
      ValueAtAbsent(s[1..], k);
    }
  }

  /** A key whose every row holds 0 totals 0. */
  lemma {:induction false} ValueAtZeroRows<K>(s: seq<Entry<K>>, k: K)
    requires forall e :: e in s && e.key == k ==> e.value == 0.0
    ensures ValueAt(s, k) == 0.0
  {
    if s != [] {
      ValueAtZeroRows(s[1..], k);
    }
  }

  lemma {:induction false} SumValuesConcat<K>(a: seq<Entry<K>>, b: seq<Entry<K>>)
    ensures SumValues(a + b) == SumValues(a) + SumValues(b)
  {
    if a != [] {
      assert (a + b)[1..] == a[1..] + b;
      SumValuesConcat(a[1..], b);
    } else {
      assert a + b == b;
    }
  }

  lemma {:induction false} ConcatFacts<K>(a: seq<Entry<K>>, b: seq<Entry<K>>)
    ensures KeySet(a + b) == KeySet(a) + KeySet(b)
    ensures SumValues(a + b) == SumValues(a) + SumValues(b)
    ensures forall k :: ValueAt(a + b, k) == ValueAt(a, k) + ValueAt(b, k)
    ensures DistinctKeys(a) && DistinctKeys(b) && KeySet(a) !! KeySet(b) ==> DistinctKeys(a + b)
  {
    if a != [] {
      assert (a + b)[1..] == a[1..] + b;
      ConcatFacts(a[1..], b);
    } else {
      assert a + b == b;
    }
  }

  /** A table with distinct keys has as many rows as keys. */
  lemma {:induction false} DistinctCount<K>(s: seq<Entry<K>>)
    requires DistinctKeys(s)
    ensures |KeySet(s)| == |s|
  {
    if s != [] {
      DistinctCount(s[1..]);
    }
  }

  /** Adds `v` under key `k`: to the row holding `k`, or as a new last row. */
  function AddTo<K(==,!new)>(acc: seq<Entry<K>>, k: K, v: real): (r: seq<Entry<K>>)
    ensures KeySet(r) == KeySet(acc) + {k}
    ensures SumValues(r) == SumValues(acc) + v
    ensures forall k' :: ValueAt(r, k') == ValueAt(acc, k') + (if k' == k then v else 0.0)
    ensures DistinctKeys(acc) ==> DistinctKeys(r)
  {
    if acc == [] then [Entry(k, v)]
    else if acc[0].key == k then [Entry(k, acc[0].value + v)] + acc[1..]
    else [acc[0]] + AddTo(acc[1..], k, v)
  }

  /**
   * `groupby(key).sum()`: one row per key holding the total of that key's values.
   * Keys are distinct, no key is gained or lost, and every key's total (hence
   * the grand total) is unchanged.
   */
  function GroupSum<K(==,!new)>(rows: seq<Entry<K>>): (g: seq<Entry<K>>)
    ensures DistinctKeys(g)
    ensures KeySet(g) == KeySet(rows)
    ensures SumValues(g) == SumValues(rows)
    ensures forall k :: ValueAt(g, k) == ValueAt(rows, k)
  {
    if rows == [] then [] else AddTo(GroupSum(rows[1..]), rows[0].key, rows[0].value)
  }

  /** Total of the values whose key satisfies `p` (`df["v"][mask].sum()`). */
  function SumWhere<K(==)>(s: seq<Entry<K>>, p: K -> bool): real
  {
    if s == [] then 0.0 else (if p(s[0].key) then s[0].value else 0.0) + SumWhere(s[1..], p)
  }

  lemma {:induction false} SumWhereNone<K>(s: seq<Entry<K>>, p: K -> bool)
    requires forall k :: k in KeySet(s) ==> !p(k)
    ensures SumWhere(s, p) == 0.0
  {
    if s != [] {
      SumWhereNone(s[1..], p);
    }
  }

  lemma {:induction false} SumWhereConcat<K>(a: seq<Entry<K>>, b: seq<Entry<K>>, p: K -> bool)
    ensures SumWhere(a + b, p) == SumWhere(a, p) + SumWhere(b, p)
  {
    if a != [] {
      assert (a + b)[1..] == a[1..] + b;
      SumWhereConcat(a[1..], b, p);
    } else {
      assert a + b == b;
    }
  }

  lemma {:induction false} AddToWhere<K(!new)>(acc: seq<Entry<K>>, k: K, v: real, p: K -> bool)
    ensures SumWhere(AddTo(acc, k, v), p) == SumWhere(acc, p) + (if p(k) then v else 0.0)
  {
    if acc != [] && acc[0].key != k {
      AddToWhere(acc[1..], k, v, p);
    }
  }

  /** Grouping by a key that includes everything `p` looks at keeps the masked total. */
  lemma {:induction false} GroupSumWhere<K(!new)>(rows: seq<Entry<K>>, p: K -> bool)
    ensures SumWhere(GroupSum(rows), p) == SumWhere(rows, p)
  {
    if rows != [] {
      GroupSumWhere(rows[1..], p);
      AddToWhere(GroupSum(rows[1..]), rows[0].key, rows[0].value, p);
    }
  }

  // ----- outer merge of two keyed columns followed by fillna(0) and a sum -----

  /** The rows of `right` under `l`'s key, each added to `l`. */
  function Paired<K(==)>(l: Entry<K>, right: seq<Entry<K>>): seq<Entry<K>>
  {
    if right == [] then []
    else (if right[0].key == l.key then [Entry(l.key, l.value + right[0].value)] else []) + Paired(l, right[1..])
  }

  function LeftPart<K(==)>(left: seq<Entry<K>>, right: seq<Entry<K>>): seq<Entry<K>>
  {
    if left == [] then []
    else (if left[0].key in KeySet(right) then Paired(left[0], right) else [left[0]]) + LeftPart(left[1..], right)
  }

  /** The rows of `right` whose key is not in `keys`. */
  function RightOnly<K(==)>(keys: set<K>, right: seq<Entry<K>>): seq<Entry<K>>
  {
    if right == [] then []
    else (if right[0].key in keys then [] else [right[0]]) + RightOnly(keys, right[1..])
  }

  /**
   * `left.merge(right, how="outer").fillna(0)` with the two value columns added:
   * matched keys pair up (every left row with every right row of that key),
   * unmatched rows of either side keep their own value.
   */
  function OuterSum<K(==)>(left: seq<Entry<K>>, right: seq<Entry<K>>): seq<Entry<K>>
  {
    LeftPart(left, right) + RightOnly(KeySet(left), right)
  }

  lemma {:induction false} PairedAbsent<K>(l: Entry<K>, right: seq<Entry<K>>)
    requires l.key !in KeySet(right)
    ensures Paired(l, right) == []
  {
    if right != [] {
      PairedAbsent(l, right[1..]);
    }
  }

  lemma {:induction false} PairedUnique<K>(l: Entry<K>, right: seq<Entry<K>>)
    requires DistinctKeys(right) && l.key in KeySet(right)
    ensures Paired(l, right) == [Entry(l.key, l.value + ValueAt(right, l.key))]
  {
    if right[0].key == l.key {
      PairedAbsent(l, right[1..]);
      ValueAtAbsent(right[1..], l.key);
    } else {
      PairedUnique(l, right[1..]);
    }
  }

  lemma {:induction false} LeftPartFacts<K>(left: seq<Entry<K>>, right: seq<Entry<K>>)
    requires DistinctKeys(left) && DistinctKeys(right)
    ensures DistinctKeys(LeftPart(left, right))
    ensures KeySet(LeftPart(left, right)) == KeySet(left)
    ensures forall k :: (ValueAt(LeftPart(left, right), k) ==
      if k in KeySet(left) then ValueAt(left, k) + ValueAt(right, k) else 0.0)
  {
    if left != [] {
      var l := left[0];
      LeftPartFacts(left[1..], right);
      var head := Entry(l.key, l.value + ValueAt(right, l.key));
      if l.key in KeySet(right) {
        PairedUnique(l, right);
      } else {
        ValueAtAbsent(right, l.key);
      }
      assert LeftPart(left, right) == [head] + LeftPart(left[1..], right);
      ValueAtAbsent(left[1..], l.key);
    }
  }

  lemma {:induction false} RightOnlyFacts<K>(keys: set<K>, right: seq<Entry<K>>)
    requires DistinctKeys(right)
    ensures DistinctKeys(RightOnly(keys, right))
    ensures KeySet(RightOnly(keys, right)) == KeySet(right) - keys
    ensures forall k :: ValueAt(RightOnly(keys, right), k) == (if k in keys then 0.0 else ValueAt(right, k))
  {
    if right != [] {
      var t := RightOnly(keys, right[1..]);
      RightOnlyFacts(keys, right[1..]);
      ValueAtAbsent(right[1..], right[0].key);
      if right[0].key !in keys {
        assert RightOnly(keys, right) == [right[0]] + t;
        assert ([right[0]] + t)[1..] == t;
      } else {
        assert RightOnly(keys, right) == t;
      }
    }
  }

  /**
   * On tables with distinct keys (group-by results), the outer merge keeps
   * distinct keys, covers the union of both key sets and gives every key the
   * sum of its two filled-in values.
   */
  lemma OuterSumSpec<K>(left: seq<Entry<K>>, right: seq<Entry<K>>)
    requires DistinctKeys(left) && DistinctKeys(right)
    ensures DistinctKeys(OuterSum(left, right))
    ensures KeySet(OuterSum(left, right)) == KeySet(left) + KeySet(right)
    ensures forall k :: ValueAt(OuterSum(left, right), k) == ValueAt(left, k) + ValueAt(right, k)
  {
    var a := LeftPart(left, right);
    var b := RightOnly(KeySet(left), right);
    LeftPartFacts(left, right);
    RightOnlyFacts(KeySet(left), right);
    ConcatFacts(a, b);
    forall k
      ensures ValueAt(a + b, k) == ValueAt(left, k) + ValueAt(right, k)
    {
      if k !in KeySet(left) {
        ValueAtAbsent(left, k);
      }
    }
  }
}
