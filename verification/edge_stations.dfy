/**
 * Station expansion of a zone-to-zone rail demand matrix: each zone pair's
 * demand is spread over station pairs by the iRSj probabilities, grouped per
 * station pair, given the station-to-station distance and labelled with the
 * stations' three-letter codes (TLCs).
 */
module EdgeStations {
  import opened Wrappers
  import opened Frames

  /** One cell of a demand matrix with its user class. */
  datatype DemandRow = DemandRow(fromZone: int, toZone: int, userclass: int, demand: real)

  /** One iRSj probability: the share of a zone pair's demand using a station pair. */
  datatype PropRow = PropRow(fromZone: int, toZone: int, userclass: int, fromStn: int, toStn: int, proportion: real)

  /** One row of the station-to-station cost table (its `tran_distance`). */
  datatype DistRow = DistRow(fromStn: int, toStn: int, distance: real)

  /** One row of the station-zone lookup: the zone's TLC and station name. */
  datatype Station = Station(stnZone: int, code: string, name: string)

  /** Group-by key of the station matrix: zones, stations and user class. */
  datatype StnKey = StnKey(fromZone: int, toZone: int, fromStn: int, toStn: int, userclass: int)

  /** A row of the prepared station matrix; missing merge results are `None`. */
  datatype StnRow = StnRow(
    key: StnKey, distance: Option<real>, demand: real,
    oTlc: Option<string>, oName: Option<string>, dTlc: Option<string>, dName: Option<string>)

  /** Swaps the two zone columns of a demand matrix (its `transpose_matrix`). */
  function TransposeDemand(rows: seq<DemandRow>): (r: seq<DemandRow>)
    ensures |r| == |rows|
    ensures forall i :: 0 <= i < |r| ==>
      r[i] == DemandRow(rows[i].toZone, rows[i].fromZone, rows[i].userclass, rows[i].demand)
  {
    seq(|rows|, i requires 0 <= i < |rows| => rows[i].(fromZone := rows[i].toZone, toZone := rows[i].fromZone))
  }

  /** Total demand of a matrix. */
  function DemandTotal(rows: seq<DemandRow>): real
  {
    if rows == [] then 0.0 else rows[0].demand + DemandTotal(rows[1..])
  }

  lemma {:induction false} TransposeKeepsTotal(rows: seq<DemandRow>)
    ensures DemandTotal(TransposeDemand(rows)) == DemandTotal(rows)
  {
    if rows != [] {
      TransposeKeepsTotal(rows[1..]);
      assert TransposeDemand(rows)[1..] == TransposeDemand(rows[1..]);
    }
  }

  /**
   * The key test of the merge with the probabilities.  From-home segments
   * match on (from, to, userclass); the to-home variant matches its transposed
   * matrix's (from, to) against the probabilities' (to, from).
   */
  function PropHit(toHome: bool): (DemandRow, PropRow) -> bool
  {
    if toHome then
      (d: DemandRow, p: PropRow) => d.fromZone == p.toZone && d.toZone == p.fromZone && d.userclass == p.userclass
    else
      (d: DemandRow, p: PropRow) => d.fromZone == p.fromZone && d.toZone == p.toZone && d.userclass == p.userclass
  }

  /**
   * One row of the merged frame, with `Demand * proportion`.  A zone pair
   * without probabilities has missing station keys, so the group-by that
   * follows drops it.
   */
  function SplitRow(d: DemandRow, m: Option<PropRow>): Option<Entry<StnKey>>
  {
    match m
    case None => None
    case Some(p) => Some(Entry(StnKey(d.fromZone, d.toZone, p.fromStn, p.toStn, d.userclass), d.demand * p.proportion))
  }

  /** The demand matrix the merge starts from. */
  function Oriented(demand: seq<DemandRow>, toHome: bool): seq<DemandRow>
  {
    if toHome then TransposeDemand(demand) else demand
  }

  /** Demand per station pair: the merge, the product and the group-by sum. */
  function StationDemand(demand: seq<DemandRow>, props: seq<PropRow>, toHome: bool): (r: seq<Entry<StnKey>>)
    ensures DistinctKeys(r)
  {
    GroupSum(Present(LeftJoin(Oriented(demand, toHome), props, PropHit(toHome), SplitRow)))
  }

  /** Sum of the probabilities of some rows. */
  function PropTotal(ps: seq<PropRow>): real
  {
    if ps == [] then 0.0 else ps[0].proportion + PropTotal(ps[1..])
  }

  /** Each zone pair's demand times the total probability of its station pairs. */
  function SplitTotal(rows: seq<DemandRow>, props: seq<PropRow>, hit: (DemandRow, PropRow) -> bool): real
  {
    if rows == [] then 0.0
    else rows[0].demand * PropTotal(Matches(rows[0], props, hit)) + SplitTotal(rows[1..], props, hit)
  }

  lemma {:induction false} PartnersTotal(d: DemandRow, ms: seq<PropRow>)
    ensures SumValues(Present(EachPartner(d, ms, SplitRow))) == d.demand * PropTotal(ms)
  {
    if ms != [] {
      var tail := Present(EachPartner(d, ms[1..], SplitRow));
      PartnersTotal(d, ms[1..]);
      var e := Entry(StnKey(d.fromZone, d.toZone, ms[0].fromStn, ms[0].toStn, d.userclass), d.demand * ms[0].proportion);
      assert Present(EachPartner(d, ms, SplitRow)) == [e] + tail by {
        var r := SplitRow(d, Some(ms[0]));
        assert r.Some? && r.value == e;
        assert r == Some(e);
        assert EachPartner(d, ms, SplitRow) == [Some(e)] + EachPartner(d, ms[1..], SplitRow);
        PresentConcat([Some(e)], EachPartner(d, ms[1..], SplitRow));
        assert Present([Some(e)]) == [e];
      }
      assert SumValues([e] + tail) == e.value + SumValues(tail) by {
        SumValuesConcat([e], tail);
        assert SumValues([e]) == e.value;
      }
      var a, b, c := d.demand, ms[0].proportion, PropTotal(ms[1..]);
      assert PropTotal(ms) == b + c;
      assert SumValues(tail) == a * c;
      Distribute(a, b, c);
    }
  }

  lemma Distribute(a: real, b: real, c: real)
    ensures a * (b + c) == a * b + a * c
  {
  }

  lemma {:induction false} JoinTotal(rows: seq<DemandRow>, props: seq<PropRow>, hit: (DemandRow, PropRow) -> bool)
    ensures SumValues(Present(LeftJoin(rows, props, hit, SplitRow))) == SplitTotal(rows, props, hit)
  {
    if rows != [] {
      JoinTotal(rows[1..], props, hit);
      var ms := Matches(rows[0], props, hit);
      var first := Joined(rows[0], ms, SplitRow);
      var rest := LeftJoin(rows[1..], props, hit, SplitRow);
      assert LeftJoin(rows, props, hit, SplitRow) == first + rest;
      PresentConcat(first, rest);
      SumValuesConcat(Present(first), Present(rest));
      if ms != [] {
        PartnersTotal(rows[0], ms);
      } else {
        assert first == [None];
        assert Present(first) == [];
      }
    }
  }

  /**
   * The station matrix holds each zone pair's demand times the total
   * probability of its station pairs; a zone pair with no probabilities
   * contributes nothing.
   */
  lemma StationDemandTotal(demand: seq<DemandRow>, props: seq<PropRow>, toHome: bool)
    ensures SumValues(StationDemand(demand, props, toHome)) == SplitTotal(Oriented(demand, toHome), props, PropHit(toHome))
  {
    JoinTotal(Oriented(demand, toHome), props, PropHit(toHome));
  }

  lemma {:induction false} SplitTotalWhole(rows: seq<DemandRow>, props: seq<PropRow>, hit: (DemandRow, PropRow) -> bool)
    requires forall d :: d in rows ==> PropTotal(Matches(d, props, hit)) == 1.0
    ensures SplitTotal(rows, props, hit) == DemandTotal(rows)
  {
    if rows != [] {
      SplitTotalWhole(rows[1..], props, hit);
    }
  }

  /**
   * When every zone pair's station probabilities sum to 1, station expansion
   * keeps the matrix total, for from-home and to-home segments alike.
   */
  lemma StationDemandConserves(demand: seq<DemandRow>, props: seq<PropRow>, toHome: bool)
    requires forall d :: d in Oriented(demand, toHome) ==> PropTotal(Matches(d, props, PropHit(toHome))) == 1.0
    ensures SumValues(StationDemand(demand, props, toHome)) == DemandTotal(demand)
  {
    StationDemandTotal(demand, props, toHome);
    SplitTotalWhole(Oriented(demand, toHome), props, PropHit(toHome));
    if toHome {
      TransposeKeepsTotal(demand);
    }
  }

  /** The (from, to, userclass) of the cells of a demand matrix. */
  function ZoneKeys(rows: seq<DemandRow>): set<(int, int, int)>
  {
    set d | d in rows :: (d.fromZone, d.toZone, d.userclass)
  }

  /** The station pairs named by the probabilities. */
  function StationPairs(props: seq<PropRow>): set<(int, int)>
  {
    set p | p in props :: (p.fromStn, p.toStn)
  }

  /**
   * Every station row belongs to a cell of the oriented matrix (for to-home
   * segments, a transposed cell) and uses a station pair of the probabilities.
   */
  lemma StationKeysFromInputs(demand: seq<DemandRow>, props: seq<PropRow>, toHome: bool)
    ensures forall k :: k in KeySet(StationDemand(demand, props, toHome)) ==>
      (k.fromZone, k.toZone, k.userclass) in ZoneKeys(Oriented(demand, toHome)) &&
      (k.fromStn, k.toStn) in StationPairs(props)
  {
    var rows := Oriented(demand, toHome);
    var ok := (o: Option<Entry<StnKey>>) =>
      o.None? ||
      ((o.value.key.fromZone, o.value.key.toZone, o.value.key.userclass) in ZoneKeys(rows) &&
       (o.value.key.fromStn, o.value.key.toStn) in StationPairs(props));
    forall l, r | l in rows && r in props && PropHit(toHome)(l, r)
      ensures ok(SplitRow(l, Some(r)))
    {
      assert (l.fromZone, l.toZone, l.userclass) in ZoneKeys(rows);
      assert (r.fromStn, r.toStn) in StationPairs(props);
    }
    LeftJoinAll(rows, props, PropHit(toHome), SplitRow, ok);
    var joined := LeftJoin(rows, props, PropHit(toHome), SplitRow);
    forall k | k in KeySet(StationDemand(demand, props, toHome))
      ensures (k.fromZone, k.toZone, k.userclass) in ZoneKeys(rows) && (k.fromStn, k.toStn) in StationPairs(props)
    {
      KeySetMember(Present(joined), k);
      var e: Entry<StnKey> :| e in Present(joined) && e.key == k;
      PresentMember(joined, e);
      assert ok(Some(e));
    }
  }

  /** Rows of the station matrix whose origin station is not the zero station. */
  function NonZeroStations(es: seq<Entry<StnKey>>): seq<Entry<StnKey>>
  {
    Filter(es, (e: Entry<StnKey>) => e.key.fromStn != 0)
  }

  function DistHit(): (Entry<StnKey>, DistRow) -> bool
  {
    (e: Entry<StnKey>, r: DistRow) => r.fromStn == e.key.fromStn && r.toStn == e.key.toStn
  }

  function AddDistance(e: Entry<StnKey>, m: Option<DistRow>): StnRow
  {
    StnRow(e.key, if m.Some? then Some(m.value.distance) else None, e.value, None, None, None, None)
  }

  /** The left merge with the cost table on the station pair. */
  function WithDistance(es: seq<Entry<StnKey>>, dist: seq<DistRow>): seq<StnRow>
  {
    LeftJoin(es, dist, DistHit(), AddDistance)
  }

  function FromStnHit(): (StnRow, Station) -> bool
  {
    (r: StnRow, s: Station) => s.stnZone == r.key.fromStn
  }

  function ToStnHit(): (StnRow, Station) -> bool
  {
    (r: StnRow, s: Station) => s.stnZone == r.key.toStn
  }

  function SetOrigin(r: StnRow, m: Option<Station>): StnRow
  {
    r.(oTlc := if m.Some? then Some(m.value.code) else None, oName := if m.Some? then Some(m.value.name) else None)
  }

  function SetDest(r: StnRow, m: Option<Station>): StnRow
  {
    r.(dTlc := if m.Some? then Some(m.value.code) else None, dName := if m.Some? then Some(m.value.name) else None)
  }

  /** `add_tls2stations_matrix`: two left merges with the station lookup. */
  function AddTlcs(rows: seq<StnRow>, stations: seq<Station>): seq<StnRow>
  {
    LeftJoin(LeftJoin(rows, stations, FromStnHit(), SetOrigin), stations, ToStnHit(), SetDest)
  }

  /** `prepare_stn2stn_matrix` (and, with `toHome`, its to-home variant). */
  function Prepare(demand: seq<DemandRow>, props: seq<PropRow>, dist: seq<DistRow>, stations: seq<Station>, toHome: bool): (r: seq<StnRow>)
    ensures |r| >= |NonZeroStations(StationDemand(demand, props, toHome))|
    ensures forall x :: x in r ==> x.key.fromStn != 0
  {
    var nz := NonZeroStations(StationDemand(demand, props, toHome));
    var ok := (x: StnRow) => x.key.fromStn != 0;
    LeftJoinAll(nz, dist, DistHit(), AddDistance, ok);
    var d := WithDistance(nz, dist);
    LeftJoinAll(d, stations, FromStnHit(), SetOrigin, ok);
    LeftJoinAll(LeftJoin(d, stations, FromStnHit(), SetOrigin), stations, ToStnHit(), SetDest, ok);
    AddTlcs(d, stations)
  }

  /** The code a duplicate-free station lookup gives a station zone. */
  function CodeOf(stations: seq<Station>, z: int): Option<Station>
  {
    FirstMatch(z, stations, (z: int, s: Station) => s.stnZone == z)
  }

  function DistanceKey(r: DistRow): (int, int)
  {
    (r.fromStn, r.toStn)
  }

  function StationKey(s: Station): int
  {
    s.stnZone
  }

  /**
   * With duplicate-free lookups, the TLC merges are row-for-row: every row
   * keeps its zones, stations, distance and demand, and gains the codes and
   * names of its two stations (missing when a station is not in the lookup).
   */
  lemma AddTlcsRowForRow(rows: seq<StnRow>, stations: seq<Station>)
    requires UniqueBy(stations, StationKey)
    ensures |AddTlcs(rows, stations)| == |rows|
    ensures forall i :: 0 <= i < |rows| ==>
      var o := CodeOf(stations, rows[i].key.fromStn);
      var d := CodeOf(stations, rows[i].key.toStn);
      AddTlcs(rows, stations)[i] == rows[i].(
        oTlc := if o.Some? then Some(o.value.code) else None,
        oName := if o.Some? then Some(o.value.name) else None,
        dTlc := if d.Some? then Some(d.value.code) else None,
        dName := if d.Some? then Some(d.value.name) else None)
  {
    var zoneHit := (z: int, s: Station) => s.stnZone == z;
    forall i | 0 <= i < |rows|
      ensures |Matches(rows[i], stations, FromStnHit())| <= 1
    {
      MatchesUnique(rows[i], stations, FromStnHit(), StationKey, rows[i].key.fromStn);
    }
    LeftJoinOneToOne(rows, stations, FromStnHit(), SetOrigin);
    var mid := LeftJoin(rows, stations, FromStnHit(), SetOrigin);
    forall i | 0 <= i < |mid|
      ensures |Matches(mid[i], stations, ToStnHit())| <= 1
    {
      MatchesUnique(mid[i], stations, ToStnHit(), StationKey, mid[i].key.toStn);
    }
    LeftJoinOneToOne(mid, stations, ToStnHit(), SetDest);
    forall i | 0 <= i < |rows|
      ensures FirstMatch(rows[i], stations, FromStnHit()) == CodeOf(stations, rows[i].key.fromStn)
      ensures FirstMatch(mid[i], stations, ToStnHit()) == CodeOf(stations, rows[i].key.toStn)
    {
      SameMatches(rows[i], rows[i].key.fromStn, stations, FromStnHit(), zoneHit);
      SameMatches(mid[i], rows[i].key.toStn, stations, ToStnHit(), zoneHit);
    }
  }

  /**
   * With a duplicate-free cost table, the distance merge is row-for-row and
   * keeps every station pair's demand.
   */
  lemma WithDistanceRowForRow(es: seq<Entry<StnKey>>, dist: seq<DistRow>)
    requires UniqueBy(dist, DistanceKey)
    ensures |WithDistance(es, dist)| == |es|
    ensures forall i :: 0 <= i < |es| ==>
      WithDistance(es, dist)[i].key == es[i].key && WithDistance(es, dist)[i].demand == es[i].value
  {
    forall i | 0 <= i < |es|
      ensures |Matches(es[i], dist, DistHit())| <= 1
    {
      MatchesUnique(es[i], dist, DistHit(), DistanceKey, (es[i].key.fromStn, es[i].key.toStn));
    }
    LeftJoinOneToOne(es, dist, DistHit(), AddDistance);
  }
}
