/**
 * Splitting 24-hour PA matrices into time periods and building the to-home
 * half of OD matrices from the from-home half.
 *
 *  - `SimplifyTimePeriodSplits` keeps the phi (direction factor) rows whose
 *    from-home and to-home purposes agree;
 *  - `TimeSplits` and `BuildTpPaInternal` give every zone-period its share of
 *    the zone's trips and apply those shares to a 24-hour matrix;
 *  - `BuildOdInternal` turns the four from-home period matrices into four
 *    to-home matrices;
 *  - `EfsBuildTpPa` validates its arguments and enumerates the matrices it
 *    converts.
 */
module PaToOd {
  import opened Wrappers
  import opened RealSums
  import opened Frames
  import opened Translation
  import Constants

  // ----- simplify_time_period_splits -----

  /** One row of a time-period-splits (phi) table. */
  datatype PhiRow = PhiRow(purposeFromHome: int, purposeToHome: int, timeFromHome: int, timeToHome: int, directionFactor: real)

  /**
   * A phi table.  When `hasPurposeToHome` is false the table has no
   * purpose_to_home column and the rows' `purposeToHome` fields mean nothing.
   */
  datatype PhiTable = PhiTable(hasPurposeToHome: bool, rows: seq<PhiRow>)

  /** A row of the four columns kept by the simplification. */
  datatype Phi = Phi(purposeFromHome: int, timeFromHome: int, timeToHome: int, directionFactor: real)

  /** The table returned unchanged, or reduced to its matching-purpose rows. */
  datatype Simplified = Unchanged(table: PhiTable) | Reduced(phis: seq<Phi>)

  function Project(r: PhiRow): Phi
  {
    Phi(r.purposeFromHome, r.timeFromHome, r.timeToHome, r.directionFactor)
  }

  function ProjectAll(rows: seq<PhiRow>): (r: seq<Phi>)
    ensures |r| == |rows|
    ensures forall i :: 0 <= i < |rows| ==> r[i] == Project(rows[i])
  {
    if rows == [] then [] else [Project(rows[0])] + ProjectAll(rows[1..])
  }

  /** The phi rows later steps read, whichever way the table was simplified. */
  function PhisOf(s: Simplified): seq<Phi>
  {
    match s
    case Unchanged(t) => ProjectAll(t.rows)
    case Reduced(phis) => phis
  }

  predicate SamePurpose(r: PhiRow)
  {
    r.purposeFromHome == r.purposeToHome
  }

  /** The rows whose from-home and to-home purposes agree, in order. */
  function SamePurposeRows(rows: seq<PhiRow>): (r: seq<PhiRow>)
    ensures |r| <= |rows|
    ensures forall x :: x in r <==> x in rows && SamePurpose(x)
  {
    Filter(rows, SamePurpose)
  }

  /** `.loc[mask]`: the rows whose mask entry is true, in order. */
  function Masked<T>(rows: seq<T>, keep: seq<bool>): seq<T>
    requires |keep| == |rows|
  {
    if rows == [] then [] else (if keep[0] then [rows[0]] else []) + Masked(rows[1..], keep[1..])
  }

  lemma {:induction false} MaskedIsFilter(rows: seq<PhiRow>, keep: seq<bool>)
    requires |keep| == |rows|
    requires forall i :: 0 <= i < |rows| ==> (keep[i] <==> SamePurpose(rows[i]))
    ensures Masked(rows, keep) == SamePurposeRows(rows)
  {
    if rows != [] {
      assert forall i :: 0 <= i < |rows[1..]| ==> (keep[1..][i] <==> SamePurpose(rows[1..][i])) by {
        forall i | 0 <= i < |rows[1..]|
          ensures keep[1..][i] <==> SamePurpose(rows[1..][i])
        {
          assert keep[1..][i] == keep[i + 1] && rows[1..][i] == rows[i + 1];
        }
      }
      MaskedIsFilter(rows[1..], keep[1..]);
    }
  }

  function PurposesFromHome(rows: seq<PhiRow>): (r: seq<int>)
    ensures |r| == |rows|
    ensures forall i :: 0 <= i < |rows| ==> r[i] == rows[i].purposeFromHome
  {
    seq(|rows|, i requires 0 <= i < |rows| => rows[i].purposeFromHome)
  }

  /**
   * Without a purpose_to_home column the table comes back unchanged; otherwise
   * a mask is OR-ed together over the distinct from-home purposes `p`, marking
   * the rows whose from-home and to-home purposes are both `p`, and the marked
   * rows are kept with the four needed columns.
   */
  method SimplifyTimePeriodSplits(t: PhiTable) returns (r: Simplified)
    ensures !t.hasPurposeToHome ==> r == Unchanged(t)
    ensures t.hasPurposeToHome ==> r == Reduced(ProjectAll(SamePurposeRows(t.rows)))
  {
    if !t.hasPurposeToHome {
      return Unchanged(t);
    }
    var rows := t.rows;
    var purposes := DropDuplicates(PurposesFromHome(rows));
    var keep: seq<bool> := seq(|rows|, i => false);
    var k := 0;
    while k < |purposes|
      invariant 0 <= k <= |purposes|
      invariant |keep| == |rows|
      invariant forall i :: 0 <= i < |rows| ==>
        (keep[i] <==> rows[i].purposeFromHome in purposes[..k] && SamePurpose(rows[i]))
    {
      var p := purposes[k];
      keep := seq(|rows|, i requires 0 <= i < |rows| =>
        keep[i] || (rows[i].purposeFromHome == p && rows[i].purposeToHome == p));
      assert purposes[..k + 1] == purposes[..k] + [p];
      k := k + 1;
    }
    forall i | 0 <= i < |rows|
      ensures keep[i] <==> SamePurpose(rows[i])
    {
      assert PurposesFromHome(rows)[i] == rows[i].purposeFromHome;
      assert purposes[..k] == purposes;
    }
    MaskedIsFilter(rows, keep);
    r := Reduced(ProjectAll(Masked(rows, keep)));
  }

  /** What the simplification promises about the rows later steps read. */
  lemma SimplifiedRows(t: PhiTable, s: Simplified)
    requires t.hasPurposeToHome && s == Reduced(ProjectAll(SamePurposeRows(t.rows)))
    ensures forall x :: x in PhisOf(s) <==> exists r :: r in t.rows && SamePurpose(r) && x == Project(r)
  {
    var kept := SamePurposeRows(t.rows);
    var phis := ProjectAll(kept);
    forall x
      ensures x in phis <==> exists r :: r in t.rows && SamePurpose(r) && x == Project(r)
    {
      if x in phis {
        var i :| 0 <= i < |phis| && phis[i] == x;
        assert kept[i] in t.rows && SamePurpose(kept[i]);
      }
      if exists r :: r in t.rows && SamePurpose(r) && x == Project(r) {
        var r :| r in t.rows && SamePurpose(r) && x == Project(r);
        assert r in kept;
        var i :| 0 <= i < |kept| && kept[i] == r;
        assert phis[i] == x;
      }
    }
  }

  // ----- time-split factors (_build_tp_pa_internal) -----

  /** A row of the narrowed tp_split table: a zone, a time period and its trips. */
  datatype TpRow = TpRow(zone: int, tp: int, trips: real)

  /** The trips of zone `z`, summed over all its rows. */
  function ZoneTotal(rows: seq<TpRow>, z: int): real
  {
    if rows == [] then 0.0 else (if rows[0].zone == z then rows[0].trips else 0.0) + ZoneTotal(rows[1..], z)
  }

  /** x / total, with no value (NaN) when the total is 0. */
  function Ratio(x: real, total: real): (r: Option<real>)
    ensures r.Some? <==> total != 0.0
    ensures r.Some? ==> r.value * total == x
  {
    if total == 0.0 then None else Some(x / total)
  }

  /**
   * With non-negative trips, a zone whose total is 0 has only zero trips, so
   * each of its splits is 0 / 0 (NaN) and never an infinity.
   */
  lemma {:induction false} ZeroTotalOnlyZeroTrips(rows: seq<TpRow>, z: int)
    requires forall i :: 0 <= i < |rows| ==> rows[i].trips >= 0.0
    ensures ZoneTotal(rows, z) >= 0.0
    ensures ZoneTotal(rows, z) == 0.0 ==> forall i :: 0 <= i < |rows| && rows[i].zone == z ==> rows[i].trips == 0.0
  {
    if rows != [] {
      ZeroTotalOnlyZeroTrips(rows[1..], z);
      if ZoneTotal(rows, z) == 0.0 {
        forall i | 0 <= i < |rows| && rows[i].zone == z
          ensures rows[i].trips == 0.0
        {
          if i > 0 {
            assert rows[1..][i - 1] == rows[i];
          }
        }
      }
    }
  }

  /** The time split of one row: its trips over its zone's total. */
  function SplitFor(all: seq<TpRow>, row: TpRow): Option<real>
  {
    Ratio(row.trips, ZoneTotal(all, row.zone))
  }

  function ZonesOf(rows: seq<TpRow>): (r: seq<int>)
    ensures |r| == |rows|
    ensures forall i :: 0 <= i < |rows| ==> r[i] == rows[i].zone
  {
    seq(|rows|, i requires 0 <= i < |rows| => rows[i].zone)
  }

  /**
   * The per-zone loop: for every distinct zone, the rows of that zone get their
   * trips divided by the zone's total.
   */
  method TimeSplits(rows: seq<TpRow>) returns (splits: seq<Option<real>>)
    ensures |splits| == |rows|
    ensures forall i :: 0 <= i < |rows| ==> splits[i] == SplitFor(rows, rows[i])
  {
    var zones := DropDuplicates(ZonesOf(rows));
    splits := seq(|rows|, i => None);
    var k := 0;
    while k < |zones|
      invariant 0 <= k <= |zones|
      invariant |splits| == |rows|
      invariant forall i :: 0 <= i < |rows| && rows[i].zone in zones[..k] ==> splits[i] == SplitFor(rows, rows[i])
    {
      var zone := zones[k];
      var total := ZoneTotal(rows, zone);
      splits := seq(|rows|, i requires 0 <= i < |rows| =>
        if rows[i].zone == zone then Ratio(rows[i].trips, total) else splits[i]);
      assert zones[..k + 1] == zones[..k] + [zone];
      k := k + 1;
    }
    forall i | 0 <= i < |rows|
      ensures splits[i] == SplitFor(rows, rows[i])
    {
      assert ZonesOf(rows)[i] == rows[i].zone;
      assert zones[..k] == zones;
    }
  }

  /** The sum, over the rows of `part` in zone `z`, of their splits within `all`. */
  function ZoneSplitSum(all: seq<TpRow>, part: seq<TpRow>, z: int): real
  {
    if part == [] then 0.0
    else (if part[0].zone == z then OrZero(SplitFor(all, part[0])) else 0.0) + ZoneSplitSum(all, part[1..], z)
  }

  lemma {:induction false} ZoneSplitSumScaled(all: seq<TpRow>, part: seq<TpRow>, z: int)
    requires ZoneTotal(all, z) != 0.0
    ensures ZoneSplitSum(all, part, z) == ZoneTotal(part, z) / ZoneTotal(all, z)
  {
    if part != [] {
      ZoneSplitSumScaled(all, part[1..], z);
      var t := ZoneTotal(all, z);
      var rest := ZoneTotal(part[1..], z);
      if part[0].zone == z {
        assert SplitFor(all, part[0]) == Some(part[0].trips / t);
        DivideSum(part[0].trips, rest, t);
      }
    }
  }

  lemma DivideSum(a: real, b: real, t: real)
    requires t != 0.0
    ensures a / t + b / t == (a + b) / t
  {
  }

  /** The time splits of a zone with trips sum to 1 over its periods. */
  lemma ZoneSplitsSumToOne(rows: seq<TpRow>, z: int)
    requires ZoneTotal(rows, z) != 0.0
    ensures ZoneSplitSum(rows, rows, z) == 1.0
  {
    ZoneSplitSumScaled(rows, rows, z);
    var t := ZoneTotal(rows, z);
    assert t / t == 1.0;
  }

  /** A row of the time_splits table: zone, period and split (missing for a zone with no trips). */
  datatype TimeSplit = TimeSplit(zone: int, tp: int, split: Option<real>)

  /** A row of the 24-hour matrix in long form. */
  datatype PaRow = PaRow(zone: int, yZone: int, trips: real)

  /** Keys of a period matrix: (model zone, other zone, period). */
  type PeriodKey = (int, int, int)

  function SplitTable(rows: seq<TpRow>): (r: seq<TimeSplit>)
    ensures |r| == |rows|
  {
    seq(|rows|, i requires 0 <= i < |rows| => TimeSplit(rows[i].zone, rows[i].tp, SplitFor(rows, rows[i])))
  }

  function TpsOf(rows: seq<TpRow>): seq<int>
  {
    seq(|rows|, i requires 0 <= i < |rows| => rows[i].tp)
  }

  function AtTime(time: int): TimeSplit -> bool
  {
    (s: TimeSplit) => s.tp == time
  }

  function SameZone(): (PaRow, TimeSplit) -> bool
  {
    (l: PaRow, s: TimeSplit) => l.zone == s.zone
  }

  /** One merged row: the trips times the split, a missing split counting as 0. */
  function PeriodRow(time: int): (PaRow, Option<TimeSplit>) -> Entry<PeriodKey>
  {
    (l: PaRow, m: Option<TimeSplit>) =>
      Entry((l.zone, l.yZone, time), l.trips * (if m.Some? then OrZero(m.value.split) else 0.0))
  }

  /**
   * The matrix of period `time`: the 24-hour rows left-merged on zone with that
   * period's splits, scaled by the split and summed per (zone, other zone).
   */
  function PeriodTrips(pa: seq<PaRow>, splits: seq<TimeSplit>, time: int): (r: seq<Entry<PeriodKey>>)
    ensures DistinctKeys(r)
  {
    GroupSum(LeftJoin(pa, Filter(splits, AtTime(time)), SameZone(), PeriodRow(time)))
  }

  /** The (zone, other zone) cells of the 24-hour matrix, in period `time`. */
  function PaKeys(pa: seq<PaRow>, time: int): set<PeriodKey>
  {
    if pa == [] then {} else {(pa[0].zone, pa[0].yZone, time)} + PaKeys(pa[1..], time)
  }

  lemma {:induction false} EachPartnerKeys(l: PaRow, ms: seq<TimeSplit>, time: int)
    requires ms != []
    ensures KeySet(EachPartner(l, ms, PeriodRow(time))) == {(l.zone, l.yZone, time)}
  {
    if ms[1..] != [] {
      EachPartnerKeys(l, ms[1..], time);
    }
  }

  lemma {:induction false} LeftJoinKeys(pa: seq<PaRow>, factors: seq<TimeSplit>, time: int)
    ensures KeySet(LeftJoin(pa, factors, SameZone(), PeriodRow(time))) == PaKeys(pa, time)
  {
    if pa != [] {
      LeftJoinKeys(pa[1..], factors, time);
      var ms := Matches(pa[0], factors, SameZone());
      var j := Joined(pa[0], ms, PeriodRow(time));
      if ms != [] {
        EachPartnerKeys(pa[0], ms, time);
      }
      assert KeySet(j) == {(pa[0].zone, pa[0].yZone, time)};
      ConcatFacts(j, LeftJoin(pa[1..], factors, SameZone(), PeriodRow(time)));
    }
  }

  /**
   * No cell goes missing: a period matrix has exactly the cells of the 24-hour
   * matrix, even for zones the splits do not cover, and each cell once.
   */
  lemma PeriodTripsKeepsCells(pa: seq<PaRow>, splits: seq<TimeSplit>, time: int)
    ensures KeySet(PeriodTrips(pa, splits, time)) == PaKeys(pa, time)
    ensures DistinctKeys(PeriodTrips(pa, splits, time))
  {
    LeftJoinKeys(pa, Filter(splits, AtTime(time)), time);
  }

  function ZeroAtZone(z: int): Entry<PeriodKey> -> bool
  {
    (e: Entry<PeriodKey>) => e.key.0 == z ==> e.value == 0.0
  }

  /**
   * A zone with no split for a period (or only missing splits) gets no trips in
   * that period.
   */
  lemma NoSplitNoTrips(pa: seq<PaRow>, splits: seq<TimeSplit>, time: int, z: int)
    requires forall s :: s in splits && s.tp == time && s.zone == z ==> s.split.None?
    ensures forall y :: ValueAt(PeriodTrips(pa, splits, time), (z, y, time)) == 0.0
  {
    var factors := Filter(splits, AtTime(time));
    var joined := LeftJoin(pa, factors, SameZone(), PeriodRow(time));
    forall l, r | l in pa && r in factors && SameZone()(l, r)
      ensures ZeroAtZone(z)(PeriodRow(time)(l, Some(r)))
    {
      assert r in splits && r.tp == time;
      if l.zone == z {
        assert r.split.None?;
      }
    }
    LeftJoinAll(pa, factors, SameZone(), PeriodRow(time), ZeroAtZone(z));
    forall y
      ensures ValueAt(PeriodTrips(pa, splits, time), (z, y, time)) == 0.0
    {
      forall e | e in joined && e.key == (z, y, time)
        ensures e.value == 0.0
      {
        assert ZeroAtZone(z)(e);
      }
      ValueAtZeroRows(joined, (z, y, time));
    }
  }

  /** One period's matrix, as written to its own file. */
  datatype PeriodTable = PeriodTable(tp: int, cells: seq<Entry<PeriodKey>>)

  /**
   * The time-period split of one 24-hour matrix: the time splits are computed
   * per zone, then every distinct period of the splits table gets its matrix.
   */
  method BuildTpPaInternal(pa: seq<PaRow>, tpSplit: seq<TpRow>) returns (periods: seq<PeriodTable>)
    ensures |periods| == |DropDuplicates(TpsOf(tpSplit))|
    ensures forall k :: 0 <= k < |periods| ==>
      periods[k] == PeriodTable(DropDuplicates(TpsOf(tpSplit))[k],
        PeriodTrips(pa, SplitTable(tpSplit), DropDuplicates(TpsOf(tpSplit))[k]))
  {
    var splits := TimeSplits(tpSplit);
    var table := seq(|tpSplit|, i requires 0 <= i < |tpSplit| => TimeSplit(tpSplit[i].zone, tpSplit[i].tp, splits[i]));
    forall i | 0 <= i < |tpSplit|
      ensures table[i] == SplitTable(tpSplit)[i]
    {
    }
    assert table == SplitTable(tpSplit);
    var times := DropDuplicates(TpsOf(tpSplit));
    periods := [];
    var k := 0;
    while k < |times|
      invariant 0 <= k <= |times|
      invariant |periods| == k
      invariant forall q :: 0 <= q < k ==> periods[q] == PeriodTable(times[q], PeriodTrips(pa, table, times[q]))
    {
      periods := periods + [PeriodTable(times[k], PeriodTrips(pa, table, times[k]))];
      k := k + 1;
    }
  }

  // ----- to-home matrices (_build_od_internal) -----

  /** The four time periods tp1..tp4, indexed 0..3. */
  const Periods: nat := 4

  datatype OdError =
    | PhiNotBroadcastable(fromTp: int, toTp: int, count: nat)
    | FromHomeNotSquare(tp: int)
    | SizeMismatch

  /** The direction factors of from-home period `f` and to-home period `t`, in row order. */
  function PhiList(phis: seq<Phi>, purpose: int, f: int, t: int): seq<real>
  {
    if phis == [] then []
    else
      (if phis[0].purposeFromHome == purpose && phis[0].timeFromHome == f && phis[0].timeToHome == t
       then [phis[0].directionFactor] else []) + PhiList(phis[1..], purpose, f, t)
  }

  /** `PhiList` for the periods with indices `f` and `t` (tp`f+1` and tp`t+1`). */
  function PeriodPhi(phis: seq<Phi>, purpose: int, f: nat, t: nat): seq<real>
  {
    PhiList(phis, purpose, f + 1, t + 1)
  }

  /** numpy broadcasts a length-k vector to n-by-n when k is 1 or n. */
  predicate Broadcastable(phi: seq<real>, n: nat)
  {
    |phi| == 1 || |phi| == n
  }

  /** Column `j` of the broadcast phi matrix. */
  function PhiCell(phi: seq<real>, j: nat): real
  {
    if |phi| == 1 then phi[0] else if j < |phi| then phi[j] else 0.0
  }

  predicate Square(m: Matrix)
  {
    IsRect(m) && Cols(m) == |m|
  }

  /** `m.T * phi_mat`: the transposed matrix with column `j` scaled by phi's `j`th factor. */
  function ScaledTranspose(m: Matrix, phi: seq<real>): (r: Matrix)
    ensures |r| == Cols(m)
    ensures forall i :: 0 <= i < |r| ==> |r[i]| == |m|
  {
    seq(Cols(m), i requires 0 <= i => seq(|m|, j requires 0 <= j => At(m, j, i) * PhiCell(phi, j)))
  }

  /** Every broadcast and product of from-home matrix `f` succeeds. */
  predicate FromHomeScalable(m: Matrix, phis: seq<Phi>, purpose: int, f: nat)
  {
    Square(m) && forall t: nat :: t < Periods ==> Broadcastable(PeriodPhi(phis, purpose, f, t), Cols(m))
  }

  /** The conditions under which every broadcast, product and sum succeeds. */
  predicate ToHomeDefined(frh: seq<Matrix>, phis: seq<Phi>, purpose: int)
    requires |frh| == Periods
  {
    forall f: nat :: f < Periods ==> FromHomeScalable(frh[f], phis, purpose, f) && |frh[f]| == |frh[0]|
  }

  /**
   * The inner loop for from-home period `f`: the phi rows of each to-home
   * period are broadcast and the transposed matrix is scaled by them.
   */
  method ScaleFromHome(m: Matrix, phis: seq<Phi>, purpose: int, f: nat) returns (r: Result<seq<Matrix>, OdError>)
    ensures r.Success? <==> FromHomeScalable(m, phis, purpose, f)
    ensures r.Success? ==> |r.value| == Periods
    ensures r.Success? ==> forall t: nat :: t < Periods ==> r.value[t] == ScaledTranspose(m, PeriodPhi(phis, purpose, f, t))
  {
    var row: seq<Matrix> := [];
    var t: nat := 0;
    while t < Periods
      invariant t <= Periods
      invariant |row| == t
      invariant t > 0 ==> Square(m)
      invariant forall u: nat :: u < t ==> Broadcastable(PeriodPhi(phis, purpose, f, u), Cols(m))
      invariant forall u: nat :: u < t ==> row[u] == ScaledTranspose(m, PeriodPhi(phis, purpose, f, u))
    {
      var phi := PeriodPhi(phis, purpose, f, t);
      if !Broadcastable(phi, Cols(m)) {
        return Failure(PhiNotBroadcastable(f + 1, t + 1, |phi|));
      }
      if !Square(m) {
        return Failure(FromHomeNotSquare(f + 1));
      }
      row := row + [ScaledTranspose(m, phi)];
      t := t + 1;
    }
    r := Success(row);
  }

  /** The from-home share of cell (i, j) of to-home period t, over from-home periods f. */
  function ToHomeTable(frh: seq<Matrix>, phis: seq<Phi>, purpose: int, i: nat, j: nat): (nat, nat) -> real
    requires |frh| == Periods
  {
    (t: nat, f: nat) =>
      if f < Periods then At(frh[f], j, i) * PhiCell(PeriodPhi(phis, purpose, f, t), j) else 0.0
  }

  /** Cell (i, j) of to-home period t: row t of the table, summed over f. */
  function ToHomeCell(frh: seq<Matrix>, phis: seq<Phi>, purpose: int, t: nat, i: nat, j: nat): real
    requires |frh| == Periods
  {
    RowTotals(ToHomeTable(frh, phis, purpose, i, j), |frh|)(t)
  }

  /** The terms np.sum adds for cell (i, j) of to-home period t. */
  function ProductTerms(products: seq<seq<Matrix>>, t: nat, i: nat, j: nat): nat -> real
  {
    (f: nat) => if f < |products| && t < |products[f]| then At(products[f][t], i, j) else 0.0
  }

  /** One term of the np.sum is the cell formula's term. */
  lemma ProductTerm(frh: seq<Matrix>, phis: seq<Phi>, purpose: int, m: Matrix, g: nat, t: nat, i: nat, j: nat)
    requires |frh| == Periods && g < Periods
    requires Square(frh[g]) && |frh[g]| == |frh[0]| && i < |frh[0]| && j < |frh[0]|
    requires m == ScaledTranspose(frh[g], PeriodPhi(phis, purpose, g, t))
    ensures At(m, i, j) == ToHomeTable(frh, phis, purpose, i, j)(t, g)
  {
    assert |m| == |frh[0]|;
    assert m[i][j] == At(frh[g], j, i) * PhiCell(PeriodPhi(phis, purpose, g, t), j);
  }

  /** The np.sum of the products agrees with the cell formula. */
  lemma ProductSum(frh: seq<Matrix>, phis: seq<Phi>, purpose: int, products: seq<seq<Matrix>>, t: nat, i: nat, j: nat)
    requires |frh| == Periods && |products| == Periods
    requires forall g: nat :: g < Periods ==> |products[g]| == Periods && |frh[g]| == |frh[0]| && Square(frh[g])
    requires forall g: nat, u: nat :: g < Periods && u < Periods ==>
      products[g][u] == ScaledTranspose(frh[g], PeriodPhi(phis, purpose, g, u))
    requires t < Periods && i < |frh[0]| && j < |frh[0]|
    ensures SumF(|frh|, ProductTerms(products, t, i, j)) == ToHomeCell(frh, phis, purpose, t, i, j)
  {
    var terms := ProductTerms(products, t, i, j);
    var row := Row(ToHomeTable(frh, phis, purpose, i, j), t);
    forall g: nat | g < |frh|
      ensures terms(g) == row(g)
    {
      ProductTerm(frh, phis, purpose, products[g][t], g, t, i, j);
    }
    SumFCongruence(|frh|, terms, row);
  }

  /**
   * For each from-home period f and to-home period t: the phi rows for (f, t)
   * are broadcast, the transposed from-home matrix is scaled by them, and the
   * products are summed over f.  A broadcast or product numpy refuses, or
   * matrices of different sizes, end the build with an error.
   */
  method BuildOdInternal(frh: seq<Matrix>, splits: PhiTable, purpose: int) returns (r: Result<seq<Matrix>, OdError>)
    requires |frh| == Periods
    ensures r.Success? <==> ToHomeDefined(frh, PhisOf(SimplifiedSpec(splits)), purpose)
    ensures r.Success? ==> |r.value| == Periods && forall t :: 0 <= t < Periods ==>
      (|r.value[t]| == |frh[0]| &&
       forall i :: 0 <= i < |frh[0]| ==>
         (|r.value[t][i]| == |frh[0]| &&
          forall j :: 0 <= j < |frh[0]| ==>
            r.value[t][i][j] == ToHomeCell(frh, PhisOf(SimplifiedSpec(splits)), purpose, t, i, j)))
  {
    var simplified := SimplifyTimePeriodSplits(splits);
    var phis := PhisOf(simplified);
    var products: seq<seq<Matrix>> := [];
    var f: nat := 0;
    while f < Periods
      invariant f <= Periods
      invariant |products| == f
      invariant forall g: nat :: g < f ==> FromHomeScalable(frh[g], phis, purpose, g) && |products[g]| == Periods
      invariant forall g: nat, u: nat :: g < f && u < Periods ==>
        products[g][u] == ScaledTranspose(frh[g], PeriodPhi(phis, purpose, g, u))
    {
      var row := ScaleFromHome(frh[f], phis, purpose, f);
      if row.Failure? {
        return Failure(row.error);
      }
      products := products + [row.value];
      f := f + 1;
    }
    var n := |frh[0]|;
    if exists g: nat :: g < Periods && |frh[g]| != n {
      return Failure(SizeMismatch);
    }
    var toh := seq(Periods, t requires 0 <= t =>
      seq(n, i requires 0 <= i => seq(n, j requires 0 <= j => SumF(|frh|, ProductTerms(products, t, i, j)))));
    forall t, i, j | 0 <= t < Periods && 0 <= i < n && 0 <= j < n
      ensures toh[t][i][j] == ToHomeCell(frh, phis, purpose, t, i, j)
    {
      ProductSum(frh, phis, purpose, products, t, i, j);
    }
    r := Success(toh);
  }

  /** What `SimplifyTimePeriodSplits` returns, as a function. */
  function SimplifiedSpec(t: PhiTable): Simplified
  {
    if t.hasPurposeToHome then Reduced(ProjectAll(SamePurposeRows(t.rows))) else Unchanged(t)
  }

  /** The broadcast factors of from-home period f at column j, over the to-home periods. */
  function PhiOverToHome(phis: seq<Phi>, purpose: int, j: nat): nat -> (nat -> real)
  {
    (f: nat) => (t: nat) => PhiCell(PeriodPhi(phis, purpose, f, t), j)
  }

  function FromHomeCells(frh: seq<Matrix>, i: nat, j: nat): nat -> real
    requires |frh| == Periods
  {
    (f: nat) => if f < Periods then At(frh[f], j, i) else 0.0
  }

  /**
   * When the direction factors of every from-home period sum to 1 over the
   * to-home periods, the to-home trips of a cell, over all periods, equal the
   * transposed from-home trips of that cell: every trip from home comes back.
   */
  lemma ToHomeConservesTrips(frh: seq<Matrix>, phis: seq<Phi>, purpose: int, i: nat, j: nat)
    requires |frh| == Periods
    requires forall f: nat :: f < Periods ==> SumF(|frh|, PhiOverToHome(phis, purpose, j)(f)) == 1.0
    ensures SumF(|frh|, RowTotals(ToHomeTable(frh, phis, purpose, i, j), |frh|)) == SumF(|frh|, FromHomeCells(frh, i, j))
  {
    var g := ToHomeTable(frh, phis, purpose, i, j);
    var a := FromHomeCells(frh, i, j);
    var w := PhiOverToHome(phis, purpose, j);
    forall t: nat, f: nat | t < |frh| && f < |frh|
      ensures g(t, f) == a(f) * w(f)(t)
    {
    }
    SumFRedistribute(|frh|, |frh|, g, a, w);
  }

  // ----- efs_build_tp_pa -----

  /** The arguments of efs_build_tp_pa that decide what it converts. */
  datatype TpPaRequest = TpPaRequest(
    matrixFormat: string,
    years: seq<string>,
    purposes: seq<int>,
    modes: seq<int>,
    soc: Option<seq<int>>,
    ns: Option<seq<int>>,
    ca: Option<seq<int>>)

  /** One call of the internal split builder. */
  datatype TpPaJob = TpPaJob(tripOrigin: string, modelZone: string, year: string, purpose: int,
                             mode: int, segment: Option<int>, ca: Option<int>)

  datatype TpPaError = InvalidMatrixFormat(format: string) | InvalidPurpose(purpose: int)

  /** The calls made, in order, and the error that ended the run, if any. */
  datatype TpPaRun = TpPaRun(jobs: seq<TpPaJob>, error: Option<TpPaError>)

  /** The zone column of a matrix format; only "pa" and "od" are handled. */
  function ModelZone(format: string): Option<string>
  {
    if format == "pa" then Some("p_zone") else if format == "od" then Some("o_zone") else None
  }

  /** An optional list argument; `None` stands for the single value `None`. */
  function Listed(xs: Option<seq<int>>): seq<Option<int>>
  {
    if xs.None? then [None] else seq(|xs.value|, i requires 0 <= i < |xs.value| => Some(xs.value[i]))
  }

  /** The trip origin and segments of a purpose, or nothing for an unknown purpose. */
  function PurposeSetup(p: int, soc: Option<seq<int>>, ns: Option<seq<int>>): (r: Option<(string, seq<Option<int>>)>)
    ensures r.Some? <==> p in Constants.AllP
    ensures r.Some? && r.value.0 == "nhb" ==> p in Constants.AllNhbP && r.value.1 == [None]
    ensures r.Some? && r.value.0 != "nhb" ==> r.value.0 == "hb" && p in Constants.AllHbP
  {
    if p in Constants.AllNhbP then Some(("nhb", [None]))
    else if p in Constants.AllHbP then Some(("hb", if p == 1 || p == 2 then Listed(soc) else Listed(ns)))
    else None
  }

  /** `jb` is a call for the same trip origin, zone column, year and purpose as `base`. */
  predicate SameCall(jb: TpPaJob, base: TpPaJob)
  {
    jb.tripOrigin == base.tripOrigin && jb.modelZone == base.modelZone &&
    jb.year == base.year && jb.purpose == base.purpose
  }

  function CaJobs(base: TpPaJob, cas: seq<Option<int>>): (r: seq<TpPaJob>)
    ensures |r| == |cas|
    ensures forall i :: 0 <= i < |r| ==> r[i] == base.(ca := cas[i])
  {
    if cas == [] then [] else [base.(ca := cas[0])] + CaJobs(base, cas[1..])
  }

  lemma MulSucc(a: nat, b: nat)
    ensures (a + 1) * b == b + a * b
  {
  }

  function SegmentJobs(base: TpPaJob, segs: seq<Option<int>>, cas: seq<Option<int>>): (r: seq<TpPaJob>)
    ensures |r| == |segs| * |cas|
    ensures forall jb :: jb in r ==> SameCall(jb, base) && jb.mode == base.mode && jb.segment in segs && jb.ca in cas
  {
    if segs == [] then []
    else
      var head := CaJobs(base.(segment := segs[0]), cas);
      var rest := SegmentJobs(base, segs[1..], cas);
      assert forall jb :: jb in head ==> SameCall(jb, base) && jb.mode == base.mode && jb.segment in segs && jb.ca in cas by {
        forall jb | jb in head
          ensures SameCall(jb, base) && jb.mode == base.mode && jb.segment in segs && jb.ca in cas
        {
          var i :| 0 <= i < |head| && head[i] == jb;
          assert jb == base.(segment := segs[0], ca := cas[i]);
        }
      }
      MulSucc(|segs[1..]|, |cas|);
      head + rest
  }

  /** The calls made for one year and purpose: every mode, segment and car availability. */
  function PurposeJobs(base: TpPaJob, modes: seq<int>, segs: seq<Option<int>>, cas: seq<Option<int>>): (r: seq<TpPaJob>)
    ensures |r| == |modes| * (|segs| * |cas|)
    ensures forall jb :: jb in r ==> SameCall(jb, base) && jb.mode in modes && jb.segment in segs && jb.ca in cas
  {
    if modes == [] then []
    else
      var head := SegmentJobs(base.(mode := modes[0]), segs, cas);
      var rest := PurposeJobs(base, modes[1..], segs, cas);
      MulSucc(|modes[1..]|, |segs| * |cas|);
      head + rest
  }

  /** Runs `b` after `a` unless `a` ended with an error. */
  function Then(a: TpPaRun, b: TpPaRun): TpPaRun
  {
    if a.error.Some? then a else TpPaRun(a.jobs + b.jobs, b.error)
  }

  lemma ThenAssoc(a: TpPaRun, b: TpPaRun, c: TpPaRun)
    ensures Then(Then(a, b), c) == Then(a, Then(b, c))
  {
    if a.error.None? && b.error.None? {
      assert (a.jobs + b.jobs) + c.jobs == a.jobs + (b.jobs + c.jobs);
    }
  }

  /** The calls made for one year and purpose, once the purpose is known. */
  function PurposeRun(zone: string, year: string, p: int, req: TpPaRequest): TpPaRun
  {
    match PurposeSetup(p, req.soc, req.ns)
    case None => TpPaRun([], Some(InvalidPurpose(p)))
    case Some((origin, segs)) =>
      TpPaRun(PurposeJobs(TpPaJob(origin, zone, year, p, 0, None, None), req.modes, segs, Listed(req.ca)), None)
  }

  function RunPurposes(zone: string, year: string, purposes: seq<int>, req: TpPaRequest): TpPaRun
  {
    if purposes == [] then TpPaRun([], None)
    else Then(PurposeRun(zone, year, purposes[0], req), RunPurposes(zone, year, purposes[1..], req))
  }

  function RunYears(zone: string, years: seq<string>, req: TpPaRequest): TpPaRun
  {
    if years == [] then TpPaRun([], None)
    else Then(RunPurposes(zone, years[0], req.purposes, req), RunYears(zone, years[1..], req))
  }

  /** The calls efs_build_tp_pa makes, and how it ends. */
  function BuildTpPaSpec(req: TpPaRequest): TpPaRun
  {
    match ModelZone(req.matrixFormat)
    case None => TpPaRun([], Some(InvalidMatrixFormat(req.matrixFormat)))
    case Some(zone) => RunYears(zone, req.years, req)
  }

  /** The first purpose that is neither home-based nor non-home-based. */
  function FirstInvalid(purposes: seq<int>): (r: Option<int>)
    ensures r.None? <==> forall p :: p in purposes ==> p in Constants.AllP
    ensures r.Some? ==> r.value in purposes && r.value !in Constants.AllP
  {
    if purposes == [] then None
    else
      assert forall p :: p in purposes <==> p == purposes[0] || p in purposes[1..] by {
        assert purposes == [purposes[0]] + purposes[1..];
      }
      if purposes[0] !in Constants.AllP then Some(purposes[0])
      else FirstInvalid(purposes[1..])
  }

  lemma {:induction false} RunPurposesError(zone: string, year: string, purposes: seq<int>, req: TpPaRequest)
    ensures RunPurposes(zone, year, purposes, req).error ==
      (if FirstInvalid(purposes).Some? then Some(InvalidPurpose(FirstInvalid(purposes).value)) else None)
  {
    if purposes != [] {
      RunPurposesError(zone, year, purposes[1..], req);
    }
  }

  lemma {:induction false} RunYearsError(zone: string, years: seq<string>, req: TpPaRequest)
    ensures RunYears(zone, years, req).error ==
      (if years != [] && FirstInvalid(req.purposes).Some? then Some(InvalidPurpose(FirstInvalid(req.purposes).value)) else None)
  {
    if years != [] {
      RunPurposesError(zone, years[0], req.purposes, req);
      RunYearsError(zone, years[1..], req);
    }
  }

  /**
   * The run fails with a ValueError for a matrix format other than "pa" or
   * "od", before any work; otherwise it fails on the first purpose outside
   * the home-based and non-home-based lists, but only once a year is being
   * processed (with no years nothing is checked).
   */
  lemma BuildTpPaErrors(req: TpPaRequest)
    ensures BuildTpPaSpec(req).error ==
      if req.matrixFormat != "pa" && req.matrixFormat != "od" then Some(InvalidMatrixFormat(req.matrixFormat))
      else if req.years != [] && FirstInvalid(req.purposes).Some? then Some(InvalidPurpose(FirstInvalid(req.purposes).value))
      else None
    ensures BuildTpPaSpec(req).error.Some? && BuildTpPaSpec(req).error.value.InvalidMatrixFormat? ==> BuildTpPaSpec(req).jobs == []
  {
    if ModelZone(req.matrixFormat).Some? {
      RunYearsError(ModelZone(req.matrixFormat).value, req.years, req);
    }
  }

  /** A call is consistent: its purpose belongs to its trip origin, and non-home-based calls are unsegmented. */
  predicate JobOk(jb: TpPaJob, zone: string)
  {
    jb.modelZone == zone &&
    Constants.TripOriginPurposes(jb.tripOrigin).Some? &&
    jb.purpose in Constants.TripOriginPurposes(jb.tripOrigin).value &&
    (jb.tripOrigin == "nhb" ==> jb.segment.None?)
  }

  lemma {:induction false} RunPurposesJobs(zone: string, year: string, purposes: seq<int>, req: TpPaRequest)
    ensures forall jb :: jb in RunPurposes(zone, year, purposes, req).jobs ==> JobOk(jb, zone)
  {
    if purposes != [] {
      RunPurposesJobs(zone, year, purposes[1..], req);
    }
  }

  lemma {:induction false} RunYearsJobs(zone: string, years: seq<string>, req: TpPaRequest)
    ensures forall jb :: jb in RunYears(zone, years, req).jobs ==> JobOk(jb, zone)
  {
    if years != [] {
      RunPurposesJobs(zone, years[0], req.purposes, req);
      RunYearsJobs(zone, years[1..], req);
    }
  }

  /** Every call made uses the format's zone column and a purpose of its trip origin. */
  lemma BuildTpPaJobs(req: TpPaRequest)
    ensures forall jb :: jb in BuildTpPaSpec(req).jobs ==>
      ModelZone(req.matrixFormat).Some? && JobOk(jb, ModelZone(req.matrixFormat).value)
  {
    if ModelZone(req.matrixFormat).Some? {
      RunYearsJobs(ModelZone(req.matrixFormat).value, req.years, req);
    }
  }

  /** The purpose loop of one year, continuing the run `acc`. */
  method RunYear(zone: string, year: string, req: TpPaRequest, acc: TpPaRun) returns (run: TpPaRun)
    requires acc.error.None?
    ensures run == Then(acc, RunPurposes(zone, year, req.purposes, req))
  {
    var purposes := req.purposes;
    run := acc;
    var j := 0;
    assert purposes[0..] == purposes;
    while j < |purposes|
      invariant 0 <= j <= |purposes|
      invariant run.error.None?
      invariant Then(run, RunPurposes(zone, year, purposes[j..], req)) == Then(acc, RunPurposes(zone, year, purposes, req))
    {
      assert purposes[j..][1..] == purposes[j + 1..];
      var step := PurposeRun(zone, year, purposes[j], req);
      ThenAssoc(run, step, RunPurposes(zone, year, purposes[j + 1..], req));
      run := Then(run, step);
      if run.error.Some? {
        return;
      }
      j := j + 1;
    }
    assert purposes[j..] == [];
    assert run.jobs + [] == run.jobs;
  }

  /**
   * The nested loops of efs_build_tp_pa over years and purposes; the inner
   * mode, segment and car-availability loops are `PurposeJobs`.
   */
  method EfsBuildTpPa(req: TpPaRequest) returns (run: TpPaRun)
    ensures run == BuildTpPaSpec(req)
  {
    var modelZone := ModelZone(req.matrixFormat);
    if modelZone.None? {
      return TpPaRun([], Some(InvalidMatrixFormat(req.matrixFormat)));
    }
    var zone := modelZone.value;
    var years := req.years;
    run := TpPaRun([], None);
    var i := 0;
    assert years[0..] == years;
    assert Then(run, RunYears(zone, years, req)) == RunYears(zone, years, req);
    while i < |years|
      invariant 0 <= i <= |years|
      invariant run.error.None?
      invariant Then(run, RunYears(zone, years[i..], req)) == RunYears(zone, years, req)
    {
      assert years[i..][1..] == years[i + 1..];
      ThenAssoc(run, RunPurposes(zone, years[i], req.purposes, req), RunYears(zone, years[i + 1..], req));
      run := RunYear(zone, years[i], req, run);
      if run.error.Some? {
        return;
      }
      i := i + 1;
    }
    assert years[i..] == [];
    assert run.jobs + [] == run.jobs;
  }
}
