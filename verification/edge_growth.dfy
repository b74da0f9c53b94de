/**
 * The two EDGE growth methods.  Method 1 applies the factor of the movement
 * as it is (P=O, A=D); method 2 applies the mean of the factors of the two
 * directions.  A row without a factor keeps its demand (rate 1).
 */
module EdgeGrowth {
  import opened Wrappers
  import opened Frames
  import opened EdgeClassify
  import opened EdgeFactors

  /**
   * A melted row after growth, before the final column selection: the base
   * demand, the rate applied, the Flag and the grown demand.
   */
  datatype Grown = Grown(id: RowId, ticket: string, tDemand: Option<real>, rate: real, flag: int, nDemand: Option<real>)

  /** A melted row after the forward merge of method 2. */
  datatype Half = Half(m: MeltRow, rate1: Option<real>, flag1: int)

  /** The Demand_rate a merge brings (missing when no factor matched). */
  function FactorRate(f: Option<Factor>): Option<real>
  {
    if f.Some? then f.value.rate else None
  }

  /** The Flag a merge brings, filled with 0 when no factor matched. */
  function FactorFlag(f: Option<Factor>): int
  {
    if f.Some? then f.value.flag else 0
  }

  /** `T_Demand * Demand_rate`: a missing demand stays missing. */
  function Times(d: Option<real>, rate: real): (r: Option<real>)
    ensures r.Some? <==> d.Some?
    ensures rate == 1.0 ==> r == d
  {
    if d.Some? then Some(d.value * rate) else None
  }

  /** The melted row a grown row came from. */
  function Source(g: Grown): MeltRow
  {
    MeltRow(g.id, g.ticket, g.tDemand)
  }

  function Grow1(): (MeltRow, Option<Factor>) -> Grown
  {
    (m: MeltRow, f: Option<Factor>) =>
      var rate := FactorRate(f).GetOr(1.0);
      Grown(m.id, m.ticket, m.demand, rate, FactorFlag(f), Times(m.demand, rate))
  }

  /** `apply_edge_growth_method1`: the melted matrix merged with the factors on the exact key. */
  function Method1(mx: seq<TicketRow>, factors: seq<Factor>): (g: seq<Grown>)
    ensures |g| >= 3 * |mx|
  {
    LeftJoin(Melt(mx), factors, ExactHit(), Grow1())
  }

  predicate Unfactored(m: MeltRow, factors: seq<Factor>)
  {
    Matches(m, factors, ExactHit()) == []
  }

  /**
   * Every row of method 1 is its base demand times its rate; a row with no
   * factor for its exact key has rate 1 and Flag 0, so its demand is unchanged,
   * and a row with a factor takes that factor's rate and Flag.
   */
  lemma Method1Rows(mx: seq<TicketRow>, factors: seq<Factor>)
    ensures forall g :: g in Method1(mx, factors) ==> g.nDemand == Times(g.tDemand, g.rate)
    ensures forall g :: g in Method1(mx, factors) && Unfactored(Source(g), factors) ==>
      g.rate == 1.0 && g.flag == 0 && g.nDemand == g.tDemand
    ensures forall g :: g in Method1(mx, factors) && !Unfactored(Source(g), factors) ==>
      exists f :: f in factors && ExactHit()(Source(g), f) && g.rate == f.rate.GetOr(1.0) && g.flag == f.flag
  {
    var ok := (g: Grown) =>
      g.nDemand == Times(g.tDemand, g.rate) &&
      (Unfactored(Source(g), factors) ==> g.rate == 1.0 && g.flag == 0) &&
      (!Unfactored(Source(g), factors) ==>
        exists f :: f in factors && ExactHit()(Source(g), f) && g.rate == f.rate.GetOr(1.0) && g.flag == f.flag);
    forall m, f | m in Melt(mx) && f in factors && ExactHit()(m, f)
      ensures ok(Grow1()(m, Some(f)))
    {
      var g := Grow1()(m, Some(f));
      assert Source(g) == m;
      assert f in Matches(m, factors, ExactHit());
    }
    forall m | m in Melt(mx) && Matches(m, factors, ExactHit()) == []
      ensures ok(Grow1()(m, None))
    {
      assert Source(Grow1()(m, None)) == m;
    }
    LeftJoinAll(Melt(mx), factors, ExactHit(), Grow1(), ok);
  }

  // ----- method 2 -----

  /** The merge on the reversed direction: the factor from D to O for the same ticket and purpose. */
  function ReverseHit(): (Half, Factor) -> bool
  {
    (h: Half, f: Factor) => KeyOf(h.m) == Some(TicketKey(f.codeTo, f.codeFrom, f.ticket, f.purpose))
  }

  /**
   * `mean(axis=1)` over the two growth columns: missing values are skipped, so
   * one present rate is its own mean, and the mean is missing only when both are.
   */
  function MeanSkipNa(a: Option<real>, b: Option<real>): (r: Option<real>)
    ensures r.None? <==> a.None? && b.None?
    ensures a.Some? && b.None? ==> r == a
    ensures a.None? && b.Some? ==> r == b
    ensures a.Some? && b.Some? ==>
      (a.value <= r.value <= b.value || b.value <= r.value <= a.value) && r.value - a.value == b.value - r.value
  {
    if a.Some? && b.Some? then Some((a.value + b.value) / 2.0)
    else if a.Some? then a
    else b
  }

  function Forward(): (MeltRow, Option<Factor>) -> Half
  {
    (m: MeltRow, f: Option<Factor>) => Half(m, FactorRate(f), FactorFlag(f))
  }

  function Grow2(): (Half, Option<Factor>) -> Grown
  {
    (h: Half, f: Option<Factor>) =>
      var rate := MeanSkipNa(h.rate1, FactorRate(f)).GetOr(1.0);
      var flag := if h.flag1 == 1 && FactorFlag(f) == 1 then 1 else 0;
      Grown(h.m.id, h.m.ticket, h.m.demand, rate, flag, Times(h.m.demand, rate))
  }

  /**
   * `apply_edge_growth_method2`: the forward merge on the exact key, then a
   * second merge on the reversed codes; the rate is the NaN-skipping mean of
   * the two, 1 when both are missing, and Flag is 1 only when both are 1.
   */
  function Method2(mx: seq<TicketRow>, factors: seq<Factor>): (g: seq<Grown>)
    ensures |g| >= 3 * |mx|
  {
    LeftJoin(LeftJoin(Melt(mx), factors, ExactHit(), Forward()), factors, ReverseHit(), Grow2())
  }

  predicate NoReverse(m: MeltRow, factors: seq<Factor>)
  {
    Matches(Half(m, None, 0), factors, ReverseHit()) == []
  }

  /** What every row of the forward merge records. */
  predicate ForwardOk(h: Half, factors: seq<Factor>)
  {
    (Unfactored(h.m, factors) ==> h.rate1.None? && h.flag1 == 0) &&
    (h.flag1 == 1 ==> exists f :: f in factors && ExactHit()(h.m, f) && f.flag == 1)
  }

  /**
   * The forward merge row `h` came from `a`: the first merge's factor, missing
   * exactly when nothing matches the exact key.
   */
  predicate FromForward(h: Half, a: Option<Factor>, factors: seq<Factor>)
  {
    h == Forward()(h.m, a) &&
    (a.None? <==> Unfactored(h.m, factors)) &&
    (a.Some? ==> a.value in factors && ExactHit()(h.m, a.value))
  }

  lemma ForwardRows(melted: seq<MeltRow>, factors: seq<Factor>)
    ensures forall h :: h in LeftJoin(melted, factors, ExactHit(), Forward()) ==> h.m in melted && ForwardOk(h, factors)
    ensures forall h :: h in LeftJoin(melted, factors, ExactHit(), Forward()) ==> exists a :: FromForward(h, a, factors)
  {
    var ok := (h: Half) => h.m in melted && ForwardOk(h, factors) && exists a :: FromForward(h, a, factors);
    forall m, f | m in melted && f in factors && ExactHit()(m, f)
      ensures ok(Forward()(m, Some(f)))
    {
      assert f in Matches(m, factors, ExactHit());
      assert FromForward(Forward()(m, Some(f)), Some(f), factors);
    }
    forall m | m in melted && Matches(m, factors, ExactHit()) == []
      ensures ok(Forward()(m, None))
    {
      assert FromForward(Forward()(m, None), None, factors);
    }
    LeftJoinAll(melted, factors, ExactHit(), Forward(), ok);
  }

  /**
   * Grown row `g` of method 2 came from the forward factor `a` and the
   * reversed factor `b`, each missing exactly when nothing matches in its
   * direction: its rate is the NaN-skipping mean of their rates (1 when both
   * are missing) and its Flag is 1 exactly when both are Flag 1 factors.
   */
  predicate GrownFrom(g: Grown, a: Option<Factor>, b: Option<Factor>, factors: seq<Factor>)
  {
    (a.None? <==> Unfactored(Source(g), factors)) &&
    (a.Some? ==> a.value in factors && ExactHit()(Source(g), a.value)) &&
    (b.None? <==> NoReverse(Source(g), factors)) &&
    (b.Some? ==> b.value in factors && ReverseHit()(Half(Source(g), None, 0), b.value)) &&
    g.rate == MeanSkipNa(FactorRate(a), FactorRate(b)).GetOr(1.0) &&
    g.flag == (if FactorFlag(a) == 1 && FactorFlag(b) == 1 then 1 else 0)
  }

  /**
   * Every row of method 2 is its base demand times its rate; a row with no
   * factor in either direction keeps its demand with Flag 0; Flag 1 means an
   * EDGE factor exists in both directions.
   */
  lemma Method2Rows(mx: seq<TicketRow>, factors: seq<Factor>)
    ensures forall g :: g in Method2(mx, factors) ==> g.nDemand == Times(g.tDemand, g.rate)
    ensures forall g :: g in Method2(mx, factors) && Unfactored(Source(g), factors) && NoReverse(Source(g), factors) ==>
      g.rate == 1.0 && g.flag == 0 && g.nDemand == g.tDemand
    ensures forall g :: g in Method2(mx, factors) && g.flag == 1 ==>
      (exists f :: f in factors && ExactHit()(Source(g), f) && f.flag == 1) &&
      (exists f :: f in factors && ReverseHit()(Half(Source(g), None, 0), f) && f.flag == 1)
    ensures forall g :: g in Method2(mx, factors) ==> exists a, b :: GrownFrom(g, a, b, factors)
  {
    var fwd := LeftJoin(Melt(mx), factors, ExactHit(), Forward());
    ForwardRows(Melt(mx), factors);
    var ok := (g: Grown) =>
      g.nDemand == Times(g.tDemand, g.rate) &&
      (Unfactored(Source(g), factors) && NoReverse(Source(g), factors) ==> g.rate == 1.0 && g.flag == 0) &&
      (g.flag == 1 ==>
        (exists f :: f in factors && ExactHit()(Source(g), f) && f.flag == 1) &&
        (exists f :: f in factors && ReverseHit()(Half(Source(g), None, 0), f) && f.flag == 1)) &&
      exists a, b :: GrownFrom(g, a, b, factors);
    forall h, f | h in fwd && f in factors && ReverseHit()(h, f)
      ensures ok(Grow2()(h, Some(f)))
    {
      var g := Grow2()(h, Some(f));
      assert Source(g) == h.m;
      assert ReverseHit()(Half(h.m, None, 0), f);
      assert f in Matches(Half(h.m, None, 0), factors, ReverseHit());
      var a :| FromForward(h, a, factors);
      assert GrownFrom(g, a, Some(f), factors);
    }
    forall h | h in fwd && Matches(h, factors, ReverseHit()) == []
      ensures ok(Grow2()(h, None))
    {
      var g := Grow2()(h, None);
      assert Source(g) == h.m;
      SameMatches(h, Half(h.m, None, 0), factors, ReverseHit(), ReverseHit());
      var a :| FromForward(h, a, factors);
      assert GrownFrom(g, a, None, factors);
    }
    LeftJoinAll(fwd, factors, ReverseHit(), Grow2(), ok);
  }

  // ----- method 2 against method 1 -----

  lemma {:induction false} EachPartnerPointwise<L, R, O1, O2>(l: L, ms: seq<R>, make1: (L, Option<R>) -> O1, make2: (L, Option<R>) -> O2, rel: (O1, O2) -> bool)
    requires forall o :: rel(make1(l, o), make2(l, o))
    ensures |EachPartner(l, ms, make1)| == |EachPartner(l, ms, make2)| == |ms|
    ensures forall i :: 0 <= i < |ms| ==> rel(EachPartner(l, ms, make1)[i], EachPartner(l, ms, make2)[i])
  {
    if ms != [] {
      EachPartnerPointwise(l, ms[1..], make1, make2, rel);
      var a := EachPartner(l, ms, make1);
      var b := EachPartner(l, ms, make2);
      forall i | 0 <= i < |ms|
        ensures rel(a[i], b[i])
      {
        if i > 0 {
          assert a[i] == EachPartner(l, ms[1..], make1)[i - 1];
          assert b[i] == EachPartner(l, ms[1..], make2)[i - 1];
        }
      }
    }
  }

  /** Two left merges of the same tables whose row builders agree under `rel` agree row by row. */
  lemma {:induction false} LeftJoinPointwise<L, R(!new), O1, O2>(left: seq<L>, right: seq<R>, hit: (L, R) -> bool,
                                                                 make1: (L, Option<R>) -> O1, make2: (L, Option<R>) -> O2, rel: (O1, O2) -> bool)
    requires forall l, o :: rel(make1(l, o), make2(l, o))
    ensures |LeftJoin(left, right, hit, make1)| == |LeftJoin(left, right, hit, make2)|
    ensures forall i :: 0 <= i < |LeftJoin(left, right, hit, make1)| ==>
      rel(LeftJoin(left, right, hit, make1)[i], LeftJoin(left, right, hit, make2)[i])
  {
    if left != [] {
      LeftJoinPointwise(left[1..], right, hit, make1, make2, rel);
      var ms := Matches(left[0], right, hit);
      var h1 := Joined(left[0], ms, make1);
      var h2 := Joined(left[0], ms, make2);
      if ms != [] {
        EachPartnerPointwise(left[0], ms, make1, make2, rel);
      }
      assert |h1| == |h2|;
      assert forall i :: 0 <= i < |h1| ==> rel(h1[i], h2[i]);
      var t1 := LeftJoin(left[1..], right, hit, make1);
      var t2 := LeftJoin(left[1..], right, hit, make2);
      var a := h1 + t1;
      var b := h2 + t2;
      forall i | 0 <= i < |a|
        ensures rel(a[i], b[i])
      {
        if i >= |h1| {
          assert a[i] == t1[i - |h1|] && b[i] == t2[i - |h1|];
        }
      }
    }
  }

  /** A left merge where nothing matches builds one row per left row with the right columns missing. */
  lemma {:induction false} LeftJoinNoneMatch<L, R(!new), O>(left: seq<L>, right: seq<R>, hit: (L, R) -> bool, make: (L, Option<R>) -> O)
    requires forall l, r :: l in left && r in right ==> !hit(l, r)
    ensures |LeftJoin(left, right, hit, make)| == |left|
    ensures forall i :: 0 <= i < |left| ==> LeftJoin(left, right, hit, make)[i] == make(left[i], None)
  {
    forall i | 0 <= i < |left|
      ensures |Matches(left[i], right, hit)| <= 1
    {
      forall j | 0 <= j < |right|
        ensures !hit(left[i], right[j])
      {
        assert left[i] in left && right[j] in right;
      }
      MatchesNone(left[i], right, hit);
    }
    LeftJoinOneToOne(left, right, hit, make);
    forall i | 0 <= i < |left|
      ensures FirstMatch(left[i], right, hit) == None
    {
      forall j | 0 <= j < |right|
        ensures !hit(left[i], right[j])
      {
        assert left[i] in left && right[j] in right;
      }
      MatchesNone(left[i], right, hit);
    }
  }

  /** The columns both methods keep, except Flag. */
  predicate SameGrowth(a: Grown, b: Grown)
  {
    a.id == b.id && a.ticket == b.ticket && a.tDemand == b.tDemand && a.rate == b.rate && a.nDemand == b.nDemand
  }

  /**
   * When no factor exists for the reversed direction of any row, method 2
   * applies exactly the growth of method 1, row by row: the mean of one rate
   * is that rate.  Only Flag differs (0, as one side is missing).
   */
  lemma Method2WithoutReverse(mx: seq<TicketRow>, factors: seq<Factor>)
    requires forall m, f :: m in Melt(mx) && f in factors ==> !ReverseHit()(Half(m, None, 0), f)
    ensures |Method2(mx, factors)| == |Method1(mx, factors)|
    ensures forall i :: 0 <= i < |Method1(mx, factors)| ==>
      SameGrowth(Method2(mx, factors)[i], Method1(mx, factors)[i]) && Method2(mx, factors)[i].flag == 0
  {
    var melted := Melt(mx);
    var fwd := LeftJoin(melted, factors, ExactHit(), Forward());
    var m1 := Method1(mx, factors);
    var m2 := Method2(mx, factors);
    assert m2 == LeftJoin(fwd, factors, ReverseHit(), Grow2());
    SecondMergeEmpty(melted, factors);
    var rel := (h: Half, g: Grown) => SameGrowth(Grow2()(h, None), g) && Grow2()(h, None).flag == 0;
    forall l, o
      ensures rel(Forward()(l, o), Grow1()(l, o))
    {
      GrowWithoutReverse(l, o);
    }
    LeftJoinPointwise(melted, factors, ExactHit(), Forward(), Grow1(), rel);
    assert |fwd| == |m1|;
    forall i | 0 <= i < |m1|
      ensures SameGrowth(m2[i], m1[i]) && m2[i].flag == 0
    {
      assert m2[i] == Grow2()(fwd[i], None);
      assert rel(fwd[i], m1[i]);
    }
  }

  /** One row: without a reversed factor, method 2 grows like method 1, with Flag 0. */
  lemma GrowWithoutReverse(l: MeltRow, o: Option<Factor>)
    ensures SameGrowth(Grow2()(Forward()(l, o), None), Grow1()(l, o))
    ensures Grow2()(Forward()(l, o), None).flag == 0
  {
    var h := Forward()(l, o);
    assert h == Half(l, FactorRate(o), FactorFlag(o));
    assert MeanSkipNa(h.rate1, FactorRate(None)) == FactorRate(o);
    var a := Grow2()(h, None);
    var b := Grow1()(l, o);
    assert a.rate == b.rate;
  }

  /** With no reversed factor for any melted row, the second merge of method 2 matches nothing. */
  lemma SecondMergeEmpty(melted: seq<MeltRow>, factors: seq<Factor>)
    requires forall m, f :: m in melted && f in factors ==> !ReverseHit()(Half(m, None, 0), f)
    ensures var fwd := LeftJoin(melted, factors, ExactHit(), Forward());
      |LeftJoin(fwd, factors, ReverseHit(), Grow2())| == |fwd| &&
      forall i :: 0 <= i < |fwd| ==> LeftJoin(fwd, factors, ReverseHit(), Grow2())[i] == Grow2()(fwd[i], None)
  {
    var fwd := LeftJoin(melted, factors, ExactHit(), Forward());
    ForwardRows(melted, factors);
    forall h, f | h in fwd && f in factors
      ensures !ReverseHit()(h, f)
    {
      assert ReverseHit()(h, f) == ReverseHit()(Half(h.m, None, 0), f);
    }
    LeftJoinNoneMatch(fwd, factors, ReverseHit(), Grow2());
  }

  // ----- back to a zone-to-zone matrix -----

  /** Total grown demand (a missing value counts 0, as in a group-by sum). */
  function GrownTotal(gs: seq<Grown>): real
  {
    if gs == [] then 0.0 else OrZero(gs[0].nDemand) + GrownTotal(gs[1..])
  }

  /** Total base demand of melted rows. */
  function BaseTotal(ms: seq<MeltRow>): real
  {
    if ms == [] then 0.0 else OrZero(ms[0].demand) + BaseTotal(ms[1..])
  }

  function ZoneCells(gs: seq<Grown>): (cells: seq<Entry<(int, int)>>)
    ensures |cells| == |gs|
    ensures forall i :: 0 <= i < |gs| ==>
      cells[i] == Entry((gs[i].id.fromZone, gs[i].id.toZone), OrZero(gs[i].nDemand))
  {
    if gs == [] then []
    else [Entry((gs[0].id.fromZone, gs[0].id.toZone), OrZero(gs[0].nDemand))] + ZoneCells(gs[1..])
  }

  /**
   * The group-by on (from zone, to zone) that takes a grown segment back to a
   * zone-to-zone matrix of N_Demand: one row per zone pair, the grand total
   * being the total grown demand.
   */
  function ZoneTotals(gs: seq<Grown>): (z: seq<Entry<(int, int)>>)
    ensures DistinctKeys(z)
    ensures SumValues(z) == GrownTotal(gs)
  {
    ZoneCellsTotal(gs);
    GroupSum(ZoneCells(gs))
  }

  lemma {:induction false} ZoneCellsTotal(gs: seq<Grown>)
    ensures SumValues(ZoneCells(gs)) == GrownTotal(gs)
  {
    if gs != [] {
      ZoneCellsTotal(gs[1..]);
      assert ZoneCells(gs)[1..] == ZoneCells(gs[1..]);
    }
  }

  /**
   * With no factor table at all, method 1 is the identity on demand: the zone
   * matrix it yields holds exactly the segment's base demand.
   */
  lemma Method1Neutral(mx: seq<TicketRow>)
    ensures SumValues(ZoneTotals(Method1(mx, []))) == BaseTotal(Melt(mx))
  {
    var melted := Melt(mx);
    LeftJoinNoneMatch(melted, [], ExactHit(), Grow1());
    var g := seq(|melted|, i requires 0 <= i < |melted| => Grow1()(melted[i], None));
    assert Method1(mx, []) == g;
    NeutralTotal(melted);
  }

  lemma {:induction false} NeutralTotal(ms: seq<MeltRow>)
    ensures GrownTotal(seq(|ms|, i requires 0 <= i < |ms| => Grow1()(ms[i], None))) == BaseTotal(ms)
  {
    if ms != [] {
      NeutralTotal(ms[1..]);
      var g := seq(|ms|, i requires 0 <= i < |ms| => Grow1()(ms[i], None));
      assert g[1..] == seq(|ms[1..]|, i requires 0 <= i < |ms[1..]| => Grow1()(ms[1..][i], None));
      assert g[0] == Grow1()(ms[0], None);
      assert FactorRate(None).GetOr(1.0) == 1.0;
      assert g[0].nDemand == Times(ms[0].demand, 1.0) == ms[0].demand;
    }
  }
}
