/**
 * EDGE growth factors and the resolution of movements that have none: the
 * ticket-split matrix is melted to one row per ticket type, rows without a
 * factor for their exact (origin TLC, destination TLC, ticket, purpose) borrow
 * the factor of another ticket type of the same movement, and the substitutions
 * and the unfactored demand are recorded in two audit tables.
 */
module EdgeFactors {
  import opened Wrappers
  import opened Frames
  import opened EdgeClassify

  /** One growth factor; `flag` is 1 for a factor from EDGE and 0 for a borrowed one. */
  datatype Factor = Factor(codeFrom: string, codeTo: string, purpose: string, ticket: string, rate: Option<real>, flag: int)

  /** One row of the melted matrix: the demand of one ticket type. */
  datatype MeltRow = MeltRow(id: RowId, ticket: string, demand: Option<real>)

  /** The exact key of a factor, and of a missing movement. */
  datatype TicketKey = TicketKey(codeFrom: string, codeTo: string, ticket: string, purpose: string)

  /** Key of the audit of substituted tickets. */
  datatype OtherKey = OtherKey(codeFrom: string, codeTo: string, purpose: string, missing: string, available: string, internal: int)

  /** Key of the audit of movements with no factor at all. */
  datatype NoFactorKey = NoFactorKey(codeFrom: string, codeTo: string, internal: int)

  /** What the resolver returns: the updated factor table and this segment's two audit tables. */
  datatype Resolution = Resolution(factors: seq<Factor>, otherTickets: seq<Entry<OtherKey>>, noFactors: seq<Entry<NoFactorKey>>)

  const TicketTypes: seq<string> := ["F", "R", "S"]

  function TicketDemand(r: TicketRow, ticket: string): Option<real>
  {
    if ticket == "F" then r.f else if ticket == "R" then r.r else r.s
  }

  function MeltColumn(rows: seq<TicketRow>, ticket: string): (m: seq<MeltRow>)
    ensures |m| == |rows|
  {
    seq(|rows|, i requires 0 <= i < |rows| => MeltRow(rows[i].id, ticket, TicketDemand(rows[i], ticket)))
  }

  /** `pd.melt` over F, R and S: every F row, then every R row, then every S row. */
  function Melt(rows: seq<TicketRow>): (m: seq<MeltRow>)
    ensures |m| == 3 * |rows|
    ensures forall i :: 0 <= i < |rows| ==>
      m[i] == MeltRow(rows[i].id, "F", rows[i].f) &&
      m[|rows| + i] == MeltRow(rows[i].id, "R", rows[i].r) &&
      m[2 * |rows| + i] == MeltRow(rows[i].id, "S", rows[i].s)
  {
    MeltColumn(rows, "F") + MeltColumn(rows, "R") + MeltColumn(rows, "S")
  }

  function ExactKey(f: Factor): TicketKey
  {
    TicketKey(f.codeFrom, f.codeTo, f.ticket, f.purpose)
  }

  /** The exact key of a melted row; missing when either TLC is missing. */
  function KeyOf(m: MeltRow): Option<TicketKey>
  {
    if m.id.oTlc.Some? && m.id.dTlc.Some? then Some(TicketKey(m.id.oTlc.value, m.id.dTlc.value, m.ticket, m.id.purpose))
    else None
  }

  /** The merge on (ZoneCodeFrom, ZoneCodeTo, TicketType, purpose). */
  function ExactHit(): (MeltRow, Factor) -> bool
  {
    (m: MeltRow, f: Factor) => KeyOf(m) == Some(ExactKey(f))
  }

  /** The merge on (ZoneCodeFrom, ZoneCodeTo, purpose): any ticket type of the movement. */
  function MovementHit(): (MeltRow, Factor) -> bool
  {
    (m: MeltRow, f: Factor) => m.id.oTlc == Some(f.codeFrom) && m.id.dTlc == Some(f.codeTo) && m.id.purpose == f.purpose
  }

  function KeyMovementHit(): (TicketKey, Factor) -> bool
  {
    (k: TicketKey, f: Factor) => k.codeFrom == f.codeFrom && k.codeTo == f.codeTo && k.purpose == f.purpose
  }

  function SameMovement(): (Factor, Factor) -> bool
  {
    (a: Factor, b: Factor) => a.codeFrom == b.codeFrom && a.codeTo == b.codeTo && a.purpose == b.purpose
  }

  function HasRate(f: Factor): bool
  {
    f.rate.Some?
  }

  /** The factors with a growth rate (NaN rates removed). */
  function Rated(t: seq<Factor>): seq<Factor>
  {
    Filter(t, HasRate)
  }

  function Unmatched(kept: seq<Factor>): MeltRow -> bool
  {
    (m: MeltRow) => Matches(m, kept, ExactHit()) == []
  }

  /** Melted rows for which the merge found no rate. */
  function MissingRows(melted: seq<MeltRow>, kept: seq<Factor>): seq<MeltRow>
  {
    Filter(melted, Unmatched(kept))
  }

  /** The groups of the missing rows (a missing TLC is a NaN group key, which the group-by drops). */
  function MissingKeys(missing: seq<MeltRow>): seq<TicketKey>
  {
    DropDuplicates(Present(seq(|missing|, i requires 0 <= i < |missing| => KeyOf(missing[i]))))
  }

  /** The row a missing key borrows: the first factor of its movement, with its ticket and Flag 0. */
  function BorrowFor(k: TicketKey, kept: seq<Factor>): (b: Option<Factor>)
    ensures b.Some? ==> ExactKey(b.value) == k && b.value.flag == 0
    ensures b.Some? ==> (FirstMatch(b.value, kept, SameMovement()).Some? &&
                         FirstMatch(b.value, kept, SameMovement()).value.rate == b.value.rate)
  {
    match FirstMatch(k, kept, KeyMovementHit())
    case None => None
    case Some(f) =>
      var b := Factor(k.codeFrom, k.codeTo, k.purpose, k.ticket, f.rate, 0);
      SameMatches(b, k, kept, SameMovement(), KeyMovementHit());
      Some(b)
  }

  /** The borrowed rows, one per missing key whose movement has a factor. */
  function Borrowed(keys: seq<TicketKey>, kept: seq<Factor>): (bs: seq<Factor>)
    ensures forall b :: b in bs ==> ExactKey(b) in keys && b.flag == 0
    ensures forall b :: b in bs ==>
      FirstMatch(b, kept, SameMovement()).Some? && FirstMatch(b, kept, SameMovement()).value.rate == b.rate
  {
    if keys == [] then []
    else
      var b := BorrowFor(keys[0], kept);
      (if b.Some? then [b.value] else []) + Borrowed(keys[1..], kept)
  }

  /** Borrowed rows of distinct keys have distinct exact keys. */
  lemma {:induction false} BorrowedUnique(keys: seq<TicketKey>, kept: seq<Factor>)
    requires forall i, j :: 0 <= i < j < |keys| ==> keys[i] != keys[j]
    ensures UniqueBy(Borrowed(keys, kept), ExactKey)
  {
    if keys != [] {
      var rest := keys[1..];
      BorrowedUnique(rest, kept);
      var b := BorrowFor(keys[0], kept);
      var tail := Borrowed(rest, kept);
      if b.Some? {
        assert keys[0] !in rest by {
          forall j | 0 <= j < |rest|
            ensures rest[j] != keys[0]
          {
            assert rest[j] == keys[j + 1];
          }
        }
        UniqueCons(b.value, tail, ExactKey);
      }
    }
  }

  lemma {:induction false} UniqueCons<R, K>(x: R, s: seq<R>, key: R -> K)
    requires UniqueBy(s, key)
    requires forall y :: y in s ==> key(y) != key(x)
    ensures UniqueBy([x] + s, key)
  {
    var r := [x] + s;
    forall i, j | 0 <= i < j < |r|
      ensures key(r[i]) != key(r[j])
    {
      assert r[j] == s[j - 1];
      if i > 0 {
        assert r[i] == s[i - 1];
      }
    }
  }

  /** Row of the substituted-ticket audit for a missing row and one factor of its movement. */
  function OtherRow(internal: MeltRow -> int): (MeltRow, Option<Factor>) -> Option<Entry<OtherKey>>
  {
    (m: MeltRow, f: Option<Factor>) =>
      if f.Some? && m.id.oTlc.Some? && m.id.dTlc.Some? then
        Some(Entry(OtherKey(m.id.oTlc.value, m.id.dTlc.value, m.id.purpose, m.ticket, f.value.ticket, internal(m)), OrZero(m.demand)))
      else None
  }

  /** Row of the no-factor audit for a missing row whose movement has no factor at all. */
  function NoFactorRow(internal: MeltRow -> int): (MeltRow, Option<Factor>) -> Option<Entry<NoFactorKey>>
  {
    (m: MeltRow, f: Option<Factor>) =>
      if f.None? && m.id.oTlc.Some? && m.id.dTlc.Some? then
        Some(Entry(NoFactorKey(m.id.oTlc.value, m.id.dTlc.value, internal(m)), OrZero(m.demand)))
      else None
  }

  /**
   * `create_factors_for_missing_moira_movements`, with the audit's Internal
   * flag computed by `internal`.  The updated table is the rated factors
   * followed by the borrowed rows; the audits are the group-by sums of the
   * missing rows' demand, per substitution and per unfactored movement.
   */
  function Resolve(mx: seq<TicketRow>, factors: seq<Factor>, internal: MeltRow -> int): (r: Resolution)
    ensures |r.factors| >= |Rated(factors)| && r.factors[..|Rated(factors)|] == Rated(factors)
    ensures forall i :: |Rated(factors)| <= i < |r.factors| ==> r.factors[i].flag == 0
    ensures DistinctKeys(r.otherTickets) && DistinctKeys(r.noFactors)
  {
    var kept := Rated(factors);
    var missing := MissingRows(Melt(mx), kept);
    var borrowed := Borrowed(MissingKeys(missing), kept);
    var u := kept + borrowed;
    assert u[..|kept|] == kept;
    assert forall i :: |kept| <= i < |u| ==> u[i] in borrowed;
    Resolution(
      u,
      GroupSum(Present(LeftJoin(missing, kept, MovementHit(), OtherRow(internal)))),
      GroupSum(Present(LeftJoin(missing, kept, MovementHit(), NoFactorRow(internal)))))
  }

  /** The rows `Resolve` appends. */
  function BorrowedRows(mx: seq<TicketRow>, factors: seq<Factor>): seq<Factor>
  {
    var kept := Rated(factors);
    Borrowed(MissingKeys(MissingRows(Melt(mx), kept)), kept)
  }

  lemma ResolveIsKeptThenBorrowed(mx: seq<TicketRow>, factors: seq<Factor>, internal: MeltRow -> int)
    ensures Resolve(mx, factors, internal).factors == Rated(factors) + BorrowedRows(mx, factors)
  {
  }

  /**
   * Every borrowed row is for a ticket that has no rated factor: its exact key
   * is that of a melted row of the segment and matches no rated input factor.
   */
  lemma BorrowedAreMissing(mx: seq<TicketRow>, factors: seq<Factor>)
    ensures forall b :: b in BorrowedRows(mx, factors) ==>
      (forall f :: f in Rated(factors) ==> ExactKey(f) != ExactKey(b))
  {
    var kept := Rated(factors);
    var missing := MissingRows(Melt(mx), kept);
    var keyCol := seq(|missing|, i requires 0 <= i < |missing| => KeyOf(missing[i]));
    forall b, f | b in BorrowedRows(mx, factors) && f in kept
      ensures ExactKey(f) != ExactKey(b)
    {
      var k := ExactKey(b);
      assert k in Present(keyCol);
      PresentMember(keyCol, k);
      var i :| 0 <= i < |keyCol| && keyCol[i] == Some(k);
      var m := missing[i];
      assert m in missing;
      assert Matches(m, kept, ExactHit()) == [];
      assert !ExactHit()(m, f);
    }
  }

  /** At most one borrowed row per (origin TLC, destination TLC, ticket, purpose). */
  lemma BorrowedOnePerKey(mx: seq<TicketRow>, factors: seq<Factor>)
    ensures UniqueBy(BorrowedRows(mx, factors), ExactKey)
  {
    var kept := Rated(factors);
    BorrowedUnique(MissingKeys(MissingRows(Melt(mx), kept)), kept);
  }

  /**
   * A borrowed row takes the rate of the first rated factor of its movement
   * (the row `drop_duplicates` keeps).
   */
  lemma BorrowedRateIsFirst(mx: seq<TicketRow>, factors: seq<Factor>)
    ensures forall b :: b in BorrowedRows(mx, factors) ==>
      var f := FirstMatch(b, Rated(factors), SameMovement());
      f.Some? && f.value.rate == b.rate && b.flag == 0
  {
  }

  // ----- the running factor table -----

  /**
   * Invariant of the factor table the run threads through its segments: every
   * rated row that is not an EDGE factor has the rate of the first rated row of
   * its movement, and that row is an EDGE factor (Flag 1).
   */
  predicate Authoritative(t: seq<Factor>)
  {
    forall r :: r in Rated(t) && r.flag != 1 ==>
      var f := FirstMatch(r, Rated(t), SameMovement());
      f.Some? && f.value.flag == 1 && f.value.rate == r.rate
  }

  /** The table as read, with Flag 1 on every row, satisfies the invariant. */
  lemma EdgeTableAuthoritative(t: seq<Factor>)
    requires forall f :: f in t ==> f.flag == 1
    ensures Authoritative(t)
  {
  }

  lemma {:induction false} FilterAll<T(!new)>(s: seq<T>, keep: T -> bool)
    requires forall x :: x in s ==> keep(x)
    ensures Filter(s, keep) == s
  {
    if s != [] {
      FilterAll(s[1..], keep);
    }
  }

  lemma {:induction false} MatchesConcat<L, R(!new)>(l: L, a: seq<R>, b: seq<R>, hit: (L, R) -> bool)
    ensures Matches(l, a + b, hit) == Matches(l, a, hit) + Matches(l, b, hit)
  {
    if a != [] {
      assert (a + b)[1..] == a[1..] + b;
      MatchesConcat(l, a[1..], b, hit);
    } else {
      assert a + b == b;
    }
  }

  /** Appending rows does not change a first match that already exists. */
  lemma FirstMatchPrefix<L, R(!new)>(l: L, a: seq<R>, b: seq<R>, hit: (L, R) -> bool)
    requires FirstMatch(l, a, hit).Some?
    ensures FirstMatch(l, a + b, hit) == FirstMatch(l, a, hit)
  {
    MatchesConcat(l, a, b, hit);
  }

  /**
   * Resolution preserves the invariant, so a factor borrowed in one segment is
   * never the source of a later borrow: every borrowed rate, however many
   * segments later, is the rate of an EDGE factor of the same movement.
   */
  lemma ResolvePreservesAuthority(mx: seq<TicketRow>, factors: seq<Factor>, internal: MeltRow -> int)
    requires Authoritative(factors)
    ensures Authoritative(Resolve(mx, factors, internal).factors)
  {
    var kept := Rated(factors);
    var bs := BorrowedRows(mx, factors);
    var u := kept + bs;
    ResolveIsKeptThenBorrowed(mx, factors, internal);
    forall x | x in u
      ensures HasRate(x)
    {
      if x in bs {
        var f := FirstMatch(x, kept, SameMovement());
        assert f.value in kept;
      }
    }
    FilterAll(u, HasRate);
    assert Rated(u) == u;
    forall r | r in u && r.flag != 1
      ensures var f := FirstMatch(r, u, SameMovement()); f.Some? && f.value.flag == 1 && f.value.rate == r.rate
    {
      if r in kept {
        assert r in Matches(r, kept, SameMovement());
        FirstMatchPrefix(r, kept, bs, SameMovement());
      } else {
        var f := FirstMatch(r, kept, SameMovement()).value;
        FirstMatchPrefix(r, kept, bs, SameMovement());
        SameMatches(f, r, kept, SameMovement(), SameMovement());
        assert FirstMatch(f, kept, SameMovement()) == Some(f);
        assert f.flag == 1;
      }
    }
  }

  lemma {:induction false} FilterUnique<T(!new), K>(s: seq<T>, keep: T -> bool, key: T -> K)
    requires UniqueBy(s, key)
    ensures UniqueBy(Filter(s, keep), key)
  {
    if s != [] {
      var rest := s[1..];
      assert UniqueBy(rest, key) by {
        forall i, j | 0 <= i < j < |rest|
          ensures key(rest[i]) != key(rest[j])
        {
          assert rest[i] == s[i + 1] && rest[j] == s[j + 1];
        }
      }
      FilterUnique(rest, keep, key);
      if keep(s[0]) {
        forall y | y in Filter(rest, keep)
          ensures key(y) != key(s[0])
        {
          var j :| 0 <= j < |rest| && rest[j] == y;
          assert s[j + 1] == y;
        }
        UniqueCons(s[0], Filter(rest, keep), key);
      } else {
        assert Filter(s, keep) == Filter(rest, keep);
      }
    }
  }

  lemma {:induction false} UniqueAppend<R, K>(a: seq<R>, b: seq<R>, key: R -> K)
    requires UniqueBy(a, key) && UniqueBy(b, key)
    requires forall x, y :: x in a && y in b ==> key(x) != key(y)
    ensures UniqueBy(a + b, key)
  {
    var r := a + b;
    forall i, j | 0 <= i < j < |r|
      ensures key(r[i]) != key(r[j])
    {
      if j < |a| {
        assert r[i] == a[i] && r[j] == a[j];
      } else if i >= |a| {
        assert r[i] == b[i - |a|] && r[j] == b[j - |a|];
      } else {
        assert r[i] == a[i] && r[j] == b[j - |a|];
        assert a[i] in a && b[j - |a|] in b;
      }
    }
  }

  /** A factor table without duplicate exact keys stays without them. */
  lemma ResolveKeepsKeysUnique(mx: seq<TicketRow>, factors: seq<Factor>, internal: MeltRow -> int)
    requires UniqueBy(factors, ExactKey)
    ensures UniqueBy(Resolve(mx, factors, internal).factors, ExactKey)
  {
    ResolveIsKeptThenBorrowed(mx, factors, internal);
    FilterUnique(factors, HasRate, ExactKey);
    BorrowedOnePerKey(mx, factors);
    BorrowedAreMissing(mx, factors);
    UniqueAppend(Rated(factors), BorrowedRows(mx, factors), ExactKey);
  }

  // ----- what the audits hold -----

  /** Both TLCs of the row are known (a missing one is a NaN group key, which a group-by drops). */
  predicate Coded(m: MeltRow)
  {
    m.id.oTlc.Some? && m.id.dTlc.Some?
  }

  /** Demand of the missing rows whose movement has no rated factor of any ticket type. */
  function UnfactoredDemand(missing: seq<MeltRow>, kept: seq<Factor>): real
  {
    if missing == [] then 0.0
    else
      (if Coded(missing[0]) && Matches(missing[0], kept, MovementHit()) == [] then OrZero(missing[0].demand) else 0.0) +
      UnfactoredDemand(missing[1..], kept)
  }

  /** `v` counted `n` times. */
  function Copies(n: nat, v: real): real
  {
    if n == 0 then 0.0 else v + Copies(n - 1, v)
  }

  /** Demand of the missing rows, counted once per rated factor (available ticket) of their movement. */
  function SubstitutedDemand(missing: seq<MeltRow>, kept: seq<Factor>): real
  {
    if missing == [] then 0.0
    else
      (if Coded(missing[0]) then Copies(|Matches(missing[0], kept, MovementHit())|, OrZero(missing[0].demand)) else 0.0) +
      SubstitutedDemand(missing[1..], kept)
  }

  lemma {:induction false} NoFactorPartners(m: MeltRow, ms: seq<Factor>, internal: MeltRow -> int)
    ensures Present(EachPartner(m, ms, NoFactorRow(internal))) == []
  {
    if ms != [] {
      NoFactorPartners(m, ms[1..], internal);
    }
  }

  lemma {:induction false} OtherPartners(m: MeltRow, ms: seq<Factor>, internal: MeltRow -> int)
    ensures SumValues(Present(EachPartner(m, ms, OtherRow(internal)))) ==
      if Coded(m) then Copies(|ms|, OrZero(m.demand)) else 0.0
  {
    if ms != [] {
      OtherPartners(m, ms[1..], internal);
      var make := OtherRow(internal);
      assert EachPartner(m, ms, make) == [make(m, Some(ms[0]))] + EachPartner(m, ms[1..], make);
      PresentConcat([make(m, Some(ms[0]))], EachPartner(m, ms[1..], make));
      SumValuesConcat(Present([make(m, Some(ms[0]))]), Present(EachPartner(m, ms[1..], make)));
    }
  }

  /** The no-factor audit rows one missing row yields. */
  lemma NoFactorHead(m: MeltRow, ms: seq<Factor>, internal: MeltRow -> int)
    ensures SumValues(Present(Joined(m, ms, NoFactorRow(internal)))) ==
      if Coded(m) && ms == [] then OrZero(m.demand) else 0.0
  {
    if ms != [] {
      NoFactorPartners(m, ms, internal);
    } else {
      assert Joined(m, ms, NoFactorRow(internal)) == [NoFactorRow(internal)(m, None)];
    }
  }

  /** The substituted-ticket audit rows one missing row yields. */
  lemma OtherHead(m: MeltRow, ms: seq<Factor>, internal: MeltRow -> int)
    ensures SumValues(Present(Joined(m, ms, OtherRow(internal)))) ==
      if Coded(m) then Copies(|ms|, OrZero(m.demand)) else 0.0
  {
    if ms != [] {
      OtherPartners(m, ms, internal);
    } else {
      assert Joined(m, ms, OtherRow(internal)) == [OtherRow(internal)(m, None)];
      assert Present([OtherRow(internal)(m, None)]) == [];
    }
  }

  lemma {:induction false} NoFactorTotal(missing: seq<MeltRow>, kept: seq<Factor>, internal: MeltRow -> int)
    ensures SumValues(Present(LeftJoin(missing, kept, MovementHit(), NoFactorRow(internal)))) == UnfactoredDemand(missing, kept)
  {
    if missing != [] {
      var make := NoFactorRow(internal);
      var ms := Matches(missing[0], kept, MovementHit());
      var head := Joined(missing[0], ms, make);
      var tail := LeftJoin(missing[1..], kept, MovementHit(), make);
      NoFactorTotal(missing[1..], kept, internal);
      PresentConcat(head, tail);
      SumValuesConcat(Present(head), Present(tail));
      NoFactorHead(missing[0], ms, internal);
    }
  }

  lemma {:induction false} OtherTotal(missing: seq<MeltRow>, kept: seq<Factor>, internal: MeltRow -> int)
    ensures SumValues(Present(LeftJoin(missing, kept, MovementHit(), OtherRow(internal)))) == SubstitutedDemand(missing, kept)
  {
    if missing != [] {
      var make := OtherRow(internal);
      var ms := Matches(missing[0], kept, MovementHit());
      var head := Joined(missing[0], ms, make);
      var tail := LeftJoin(missing[1..], kept, MovementHit(), make);
      OtherTotal(missing[1..], kept, internal);
      PresentConcat(head, tail);
      SumValuesConcat(Present(head), Present(tail));
      OtherHead(missing[0], ms, internal);
    }
  }

  /**
   * The no-factor audit totals the demand of the missing rows whose movement
   * has no rated factor at all; the substituted-ticket audit totals the
   * missing rows' demand once per available ticket type of their movement.
   * Rows with an unknown TLC appear in neither.
   */
  lemma ResolveAudits(mx: seq<TicketRow>, factors: seq<Factor>, internal: MeltRow -> int)
    ensures var missing := MissingRows(Melt(mx), Rated(factors));
      SumValues(Resolve(mx, factors, internal).noFactors) == UnfactoredDemand(missing, Rated(factors)) &&
      SumValues(Resolve(mx, factors, internal).otherTickets) == SubstitutedDemand(missing, Rated(factors))
  {
    var kept := Rated(factors);
    var missing := MissingRows(Melt(mx), kept);
    NoFactorTotal(missing, kept, internal);
    OtherTotal(missing, kept, internal);
  }

  lemma {:induction false} BorrowedHas(keys: seq<TicketKey>, kept: seq<Factor>, k: TicketKey)
    requires k in keys && FirstMatch(k, kept, KeyMovementHit()).Some?
    ensures exists b :: b in Borrowed(keys, kept) && ExactKey(b) == k
  {
    if keys[0] != k {
      BorrowedHas(keys[1..], kept, k);
      var b :| b in Borrowed(keys[1..], kept) && ExactKey(b) == k;
      assert b in Borrowed(keys, kept);
    } else {
      var b := BorrowFor(k, kept);
      assert b.value in Borrowed(keys, kept);
    }
  }

  /**
   * Every melted row without a rated factor for its exact key, whose TLCs are
   * known and whose movement has a rated factor of another ticket type, gets a
   * borrowed row for its exact key.
   */
  lemma BorrowedCoversMissing(mx: seq<TicketRow>, factors: seq<Factor>)
    ensures forall m, f :: m in Melt(mx) && Coded(m) && Unmatched(Rated(factors))(m) && f in Rated(factors) && MovementHit()(m, f) ==>
      exists b :: b in BorrowedRows(mx, factors) && Some(ExactKey(b)) == KeyOf(m)
  {
    var kept := Rated(factors);
    var missing := MissingRows(Melt(mx), kept);
    var keyCol := seq(|missing|, i requires 0 <= i < |missing| => KeyOf(missing[i]));
    forall m, f | m in Melt(mx) && Coded(m) && Unmatched(kept)(m) && f in kept && MovementHit()(m, f)
      ensures exists b :: b in BorrowedRows(mx, factors) && Some(ExactKey(b)) == KeyOf(m)
    {
      assert m in missing;
      var i :| 0 <= i < |missing| && missing[i] == m;
      assert keyCol[i] == KeyOf(m);
      var k := KeyOf(m).value;
      PresentHas(keyCol, k);
      assert k in MissingKeys(missing);
      assert KeyMovementHit()(k, f);
      assert f in Matches(k, kept, KeyMovementHit());
      BorrowedHas(MissingKeys(missing), kept, k);
    }
  }

  // ----- the Internal audit flag -----

  /** The Internal flag as the resolver computes it: the masked expression assigns nothing. */
  function InternalAsWritten(m: MeltRow): int
  {
    0
  }

  /** The Internal flag the audit evidently intends: 1 when both model zones are internal (below 1158). */
  function InternalIntended(m: MeltRow): int
  {
    if m.id.fromZone < 1158 && m.id.toZone < 1158 then 1 else 0
  }

  lemma OtherRowsNotInternal(missing: seq<MeltRow>, kept: seq<Factor>)
    ensures forall x :: x in LeftJoin(missing, kept, MovementHit(), OtherRow(InternalAsWritten)) && x.Some? ==>
      x.value.key.internal == 0
  {
    var make := OtherRow(InternalAsWritten);
    var ok := (x: Option<Entry<OtherKey>>) => x.None? || x.value.key.internal == 0;
    forall l, r: Option<Factor> | true
      ensures ok(make(l, r))
    {
      if r.Some? && l.id.oTlc.Some? && l.id.dTlc.Some? {
        assert make(l, r).value.key.internal == InternalAsWritten(l);
      }
    }
    LeftJoinAll(missing, kept, MovementHit(), make, ok);
  }

  lemma NoFactorRowsNotInternal(missing: seq<MeltRow>, kept: seq<Factor>)
    ensures forall x :: x in LeftJoin(missing, kept, MovementHit(), NoFactorRow(InternalAsWritten)) && x.Some? ==>
      x.value.key.internal == 0
  {
    var make := NoFactorRow(InternalAsWritten);
    var ok := (x: Option<Entry<NoFactorKey>>) => x.None? || x.value.key.internal == 0;
    forall l, r: Option<Factor> | true
      ensures ok(make(l, r))
    {
      if r.None? && l.id.oTlc.Some? && l.id.dTlc.Some? {
        assert make(l, r).value.key.internal == InternalAsWritten(l);
      }
    }
    LeftJoinAll(missing, kept, MovementHit(), make, ok);
  }

  lemma NoInternalKeys(mx: seq<TicketRow>, factors: seq<Factor>)
    ensures forall k :: k in KeySet(Resolve(mx, factors, InternalAsWritten).otherTickets) ==> k.internal == 0
    ensures forall k :: k in KeySet(Resolve(mx, factors, InternalAsWritten).noFactors) ==> k.internal == 0
  {
    var kept := Rated(factors);
    var missing := MissingRows(Melt(mx), kept);
    OtherRowsNotInternal(missing, kept);
    NoFactorRowsNotInternal(missing, kept);
    GroupedKeysFrom(LeftJoin(missing, kept, MovementHit(), OtherRow(InternalAsWritten)), (k: OtherKey) => k.internal == 0);
    GroupedKeysFrom(LeftJoin(missing, kept, MovementHit(), NoFactorRow(InternalAsWritten)), (k: NoFactorKey) => k.internal == 0);
  }

  /**
   * As written, no audited demand is ever internal: a missing movement between
   * model zones 1 and 2 is logged with Internal 0.
   */
  lemma InternalNeverSet(mx: seq<TicketRow>, factors: seq<Factor>)
    ensures forall k :: k in KeySet(Resolve(mx, factors, InternalAsWritten).noFactors) ==> k.internal == 0
    ensures InternalAsWritten(MeltRow(RowId(1, 2, 10, Some("AAA"), 20, Some("BBB"), 1, "Business"), "F", Some(5.0))) == 0
  {
    NoInternalKeys(mx, factors);
  }

  /** With the intended flag, a movement between internal zones is audited as internal. */
  lemma InternalIntendedFlagsInternal(m: MeltRow)
    ensures InternalIntended(m) == 1 <==> m.id.fromZone < 1158 && m.id.toZone < 1158
    ensures InternalIntended(MeltRow(RowId(1, 2, 10, Some("AAA"), 20, Some("BBB"), 1, "Business"), "F", Some(5.0))) == 1
  {
  }
}
