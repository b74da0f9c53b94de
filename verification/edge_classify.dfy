/**
 * Classification of the station matrix: the EDGE flow category of each
 * station pair, its TAG (distance-banded) flow label and the journey purpose
 * of its user class, followed by the split of demand into Full, Reduced and
 * Season tickets.
 */
module EdgeClassify {
  import opened Wrappers
  import opened Frames
  import opened EdgeStations

  /** One row of the EDGE flows file: a TLC pair's flow category. */
  datatype EdgeFlow = EdgeFlow(fromCode: string, toCode: string, catId: int, catName: string)

  /** One row of the flow-category lookup: the TAG non-distance flow of a category. */
  datatype FlowCat = FlowCat(catName: string, tagNonDist: string)

  /** A station-matrix row after the two flow merges. */
  datatype FlowedRow = FlowedRow(stn: StnRow, catId: Option<int>, catName: Option<string>, tagNonDist: Option<string>)

  function FlowHit(): (StnRow, EdgeFlow) -> bool
  {
    (r: StnRow, f: EdgeFlow) => r.oTlc == Some(f.fromCode) && r.dTlc == Some(f.toCode)
  }

  function WithFlow(r: StnRow, m: Option<EdgeFlow>): FlowedRow
  {
    FlowedRow(r, if m.Some? then Some(m.value.catId) else None, if m.Some? then Some(m.value.catName) else None, None)
  }

  function CatHit(): (FlowedRow, FlowCat) -> bool
  {
    (r: FlowedRow, c: FlowCat) => r.catName == Some(c.catName)
  }

  function WithCat(r: FlowedRow, m: Option<FlowCat>): FlowedRow
  {
    r.(tagNonDist := if m.Some? then Some(m.value.tagNonDist) else None)
  }

  /** `assign_edge_flow`: left merges with the flows file and the category lookup. */
  function AssignEdgeFlow(flows: seq<EdgeFlow>, cats: seq<FlowCat>, rows: seq<StnRow>): (r: seq<FlowedRow>)
    ensures |r| >= |rows|
    ensures forall x :: x in r ==> x.stn in rows
  {
    var ok := (x: FlowedRow) => x.stn in rows;
    LeftJoinAll(rows, flows, FlowHit(), WithFlow, ok);
    LeftJoinAll(LeftJoin(rows, flows, FlowHit(), WithFlow), cats, CatHit(), WithCat, ok);
    LeftJoin(LeftJoin(rows, flows, FlowHit(), WithFlow), cats, CatHit(), WithCat)
  }

  function FlowKey(f: EdgeFlow): (string, string)
  {
    (f.fromCode, f.toCode)
  }

  function CatKey(c: FlowCat): string
  {
    c.catName
  }

  /** The category a duplicate-free flows file gives a TLC pair. */
  function FlowOf(flows: seq<EdgeFlow>, o: Option<string>, d: Option<string>): Option<EdgeFlow>
  {
    FirstMatch((o, d), flows, (k: (Option<string>, Option<string>), f: EdgeFlow) => k.0 == Some(f.fromCode) && k.1 == Some(f.toCode))
  }

  /** The non-distance flow a duplicate-free lookup gives a category. */
  function NonDistOf(cats: seq<FlowCat>, name: Option<string>): Option<FlowCat>
  {
    FirstMatch(name, cats, (n: Option<string>, c: FlowCat) => n == Some(c.catName))
  }

  /**
   * With duplicate-free lookups, flow assignment is row-for-row: each station
   * row gains the category of its TLC pair and that category's non-distance
   * flow, both missing when a lookup has no entry.
   */
  lemma AssignEdgeFlowRowForRow(flows: seq<EdgeFlow>, cats: seq<FlowCat>, rows: seq<StnRow>)
    requires UniqueBy(flows, FlowKey) && UniqueBy(cats, CatKey)
    ensures |AssignEdgeFlow(flows, cats, rows)| == |rows|
    ensures forall i :: 0 <= i < |rows| ==>
      var f := FlowOf(flows, rows[i].oTlc, rows[i].dTlc);
      var name := if f.Some? then Some(f.value.catName) else None;
      var c := NonDistOf(cats, name);
      AssignEdgeFlow(flows, cats, rows)[i] ==
        FlowedRow(rows[i], if f.Some? then Some(f.value.catId) else None, name,
                  if c.Some? then Some(c.value.tagNonDist) else None)
  {
    var pairHit := (k: (Option<string>, Option<string>), f: EdgeFlow) => k.0 == Some(f.fromCode) && k.1 == Some(f.toCode);
    var nameHit := (n: Option<string>, c: FlowCat) => n == Some(c.catName);
    forall i | 0 <= i < |rows|
      ensures |Matches(rows[i], flows, FlowHit())| <= 1
      ensures FirstMatch(rows[i], flows, FlowHit()) == FlowOf(flows, rows[i].oTlc, rows[i].dTlc)
    {
      var r := rows[i];
      if r.oTlc.Some? && r.dTlc.Some? {
        MatchesUnique(r, flows, FlowHit(), FlowKey, (r.oTlc.value, r.dTlc.value));
      } else {
        MatchesNone(r, flows, FlowHit());
      }
      SameMatches(r, (r.oTlc, r.dTlc), flows, FlowHit(), pairHit);
    }
    LeftJoinOneToOne(rows, flows, FlowHit(), WithFlow);
    var mid := LeftJoin(rows, flows, FlowHit(), WithFlow);
    forall i | 0 <= i < |mid|
      ensures |Matches(mid[i], cats, CatHit())| <= 1
      ensures FirstMatch(mid[i], cats, CatHit()) == NonDistOf(cats, mid[i].catName)
    {
      var r := mid[i];
      if r.catName.Some? {
        MatchesUnique(r, cats, CatHit(), CatKey, r.catName.value);
      } else {
        MatchesNone(r, cats, CatHit());
      }
      SameMatches(r, r.catName, cats, CatHit(), nameHit);
    }
    LeftJoinOneToOne(mid, cats, CatHit(), WithCat);
  }

  // ----- purposes and TAG flows -----

  const Ose := "Outside South East"
  const OseLondon := "Outside South East to/from London"

  /** The journey purpose of a NoRMS user class: 1-3 business, 4-6 commuting, 7-9 leisure, else blank. */
  function PurposeOf(userclass: int): string
  {
    if 1 <= userclass <= 3 then "Business"
    else if 4 <= userclass <= 6 then "Commuting"
    else if 7 <= userclass <= 9 then "Leisure"
    else ""
  }

  /**
   * The TAG flow of a row: "Outside South East" flows are banded at 25 and 100
   * miles, "Outside South East to/from London" flows at 100 miles; every other
   * flow, and any row without a distance (a comparison with NaN is false),
   * keeps its non-distance label.
   */
  function TagFlow(nonDist: Option<string>, distance: Option<real>): (r: Option<string>)
    ensures r != nonDist ==> distance.Some? && (nonDist == Some(Ose) || nonDist == Some(OseLondon))
    ensures nonDist == Some(Ose) && distance.Some? ==> r.Some? && r.value != Ose
    ensures nonDist == Some(OseLondon) && distance.Some? ==> r.Some? && r.value != OseLondon
  {
    match distance
    case None => nonDist
    case Some(d) =>
      if nonDist == Some(Ose) then
        Some(if d < 25.0 then "Outside South East <25 miles"
             else if d < 100.0 then "Outside South East 25 to 100 miles"
             else "Outside South East  100 + miles - adjusted")
      else if nonDist == Some(OseLondon) then
        Some(if d < 100.0 then "Outside South East to/from London < 100 miles"
             else "Outside South East to/from London 100 + miles")
      else nonDist
  }

  /** `col.loc[mask] = v`: the masked cells take `v`, the others keep their value. */
  function Where<T>(col: seq<T>, mask: seq<bool>, v: T): (r: seq<T>)
    requires |mask| == |col|
    ensures |r| == |col|
    ensures forall i :: 0 <= i < |col| ==> r[i] == (if mask[i] then v else col[i])
  {
    seq(|col|, i requires 0 <= i < |col| => if mask[i] then v else col[i])
  }

  /** A boolean mask over the rows. */
  function Mask(rows: seq<FlowedRow>, p: FlowedRow -> bool): (m: seq<bool>)
    ensures |m| == |rows|
    ensures forall i :: 0 <= i < |rows| ==> m[i] == p(rows[i])
  {
    seq(|rows|, i requires 0 <= i < |rows| => p(rows[i]))
  }

  function UserclassIs(uc: int): FlowedRow -> bool
  {
    (r: FlowedRow) => r.stn.key.userclass == uc
  }

  /** Rows of flow `flow` whose distance lies in [lo, hi) (a missing bound is unbounded). */
  function Band(flow: string, lo: Option<real>, hi: Option<real>): FlowedRow -> bool
  {
    (r: FlowedRow) =>
      r.tagNonDist == Some(flow) && r.stn.distance.Some? &&
      (lo.None? || r.stn.distance.value >= lo.value) &&
      (hi.None? || r.stn.distance.value < hi.value)
  }

  /** A classified row: the flowed row with its TAG flow and purpose. */
  datatype ClassRow = ClassRow(row: FlowedRow, tagFlow: Option<string>, purpose: string)

  /** The classification a row receives. */
  function Classify(r: FlowedRow): ClassRow
  {
    ClassRow(r, TagFlow(r.tagNonDist, r.stn.distance), PurposeOf(r.stn.key.userclass))
  }

  /**
   * The demand frame during classification, whose `TAG_Flow` and `Purpose`
   * columns are written in place.  A column not yet added is empty.
   */
  class MovementFrame {
    var rows: seq<FlowedRow>
    var tagFlow: seq<Option<string>>
    var purpose: seq<string>

    constructor(rows: seq<FlowedRow>)
      ensures this.rows == rows && tagFlow == [] && purpose == []
    {
      this.rows := rows;
      tagFlow := [];
      purpose := [];
    }

    /** Both added columns are present. */
    predicate Complete()
      reads this
    {
      |tagFlow| == |rows| && |purpose| == |rows|
    }

    /** The frame as classified rows. */
    function Classified(): (r: seq<ClassRow>)
      reads this
      requires Complete()
      ensures |r| == |rows|
    {
      seq(|rows|, i requires 0 <= i < |rows| && Complete() reads this => ClassRow(rows[i], tagFlow[i], purpose[i]))
    }

    /** `assign_purposes`: a blank column, then nine masked writes by user class. */
    method AssignPurposes()
      modifies this
      ensures rows == old(rows) && tagFlow == old(tagFlow)
      ensures |purpose| == |rows|
      ensures forall i :: 0 <= i < |rows| ==> purpose[i] == PurposeOf(rows[i].stn.key.userclass)
    {
      var p := seq(|rows|, i => "");
      p := Where(p, Mask(rows, UserclassIs(1)), "Business");
      p := Where(p, Mask(rows, UserclassIs(2)), "Business");
      p := Where(p, Mask(rows, UserclassIs(3)), "Business");
      p := Where(p, Mask(rows, UserclassIs(4)), "Commuting");
      p := Where(p, Mask(rows, UserclassIs(5)), "Commuting");
      p := Where(p, Mask(rows, UserclassIs(6)), "Commuting");
      p := Where(p, Mask(rows, UserclassIs(7)), "Leisure");
      p := Where(p, Mask(rows, UserclassIs(8)), "Leisure");
      p := Where(p, Mask(rows, UserclassIs(9)), "Leisure");
      purpose := p;
    }

    /** `add_distance_band_tag_flow`: a copy of the non-distance flow, then five masked writes. */
    method AddDistanceBandTagFlow()
      modifies this
      ensures rows == old(rows) && purpose == old(purpose)
      ensures |tagFlow| == |rows|
      ensures forall i :: 0 <= i < |rows| ==> tagFlow[i] == TagFlow(rows[i].tagNonDist, rows[i].stn.distance)
    {
      var rs := rows;
      var t0 := seq(|rs|, i requires 0 <= i < |rs| => rs[i].tagNonDist);
      var t1 := Where(t0, Mask(rs, Band(Ose, None, Some(25.0))), Some("Outside South East <25 miles"));
      var t2 := Where(t1, Mask(rs, Band(Ose, Some(25.0), Some(100.0))), Some("Outside South East 25 to 100 miles"));
      var t3 := Where(t2, Mask(rs, Band(Ose, Some(100.0), None)), Some("Outside South East  100 + miles - adjusted"));
      var t4 := Where(t3, Mask(rs, Band(OseLondon, None, Some(100.0))), Some("Outside South East to/from London < 100 miles"));
      var t5 := Where(t4, Mask(rs, Band(OseLondon, Some(100.0), None)), Some("Outside South East to/from London 100 + miles"));
      forall i | 0 <= i < |rs|
        ensures t5[i] == TagFlow(rs[i].tagNonDist, rs[i].stn.distance)
      {
        var r := rs[i];
        assert t0[i] == r.tagNonDist;
        assert t1[i] == (if Band(Ose, None, Some(25.0))(r) then Some("Outside South East <25 miles") else t0[i]);
        assert t2[i] == (if Band(Ose, Some(25.0), Some(100.0))(r) then Some("Outside South East 25 to 100 miles") else t1[i]);
        assert t3[i] == (if Band(Ose, Some(100.0), None)(r) then Some("Outside South East  100 + miles - adjusted") else t2[i]);
        assert t4[i] == (if Band(OseLondon, None, Some(100.0))(r) then Some("Outside South East to/from London < 100 miles") else t3[i]);
        assert t5[i] == (if Band(OseLondon, Some(100.0), None)(r) then Some("Outside South East to/from London 100 + miles") else t4[i]);
      }
      tagFlow := t5;
    }
  }

  /**
   * The classification step of a segment: the frame gets its TAG flows, then
   * its purposes, and every row ends up classified as `Classify` says.
   */
  method ClassifyRows(rows: seq<FlowedRow>) returns (r: seq<ClassRow>)
    ensures |r| == |rows|
    ensures forall i :: 0 <= i < |rows| ==> r[i] == Classify(rows[i])
    ensures r == ClassifyAll(rows)
  {
    var frame := new MovementFrame(rows);
    frame.AddDistanceBandTagFlow();
    frame.AssignPurposes();
    r := frame.Classified();
  }

  /** The classification of a whole frame, as a function. */
  function ClassifyAll(rows: seq<FlowedRow>): (r: seq<ClassRow>)
    ensures |r| == |rows|
  {
    seq(|rows|, i requires 0 <= i < |rows| => Classify(rows[i]))
  }

  // ----- ticket splits -----

  /** One row of the ticket-split table: Full, Reduced and Season shares of a TAG flow and purpose. */
  datatype TicketShare = TicketShare(tagFlow: string, purpose: string, f: real, r: real, s: real)

  /** The identifying columns a station row keeps through the ticket split and the melts. */
  datatype RowId = RowId(
    fromZone: int, toZone: int, fromStn: int, oTlc: Option<string>,
    toStn: int, dTlc: Option<string>, userclass: int, purpose: string)

  /** A classified row with its (possibly missing) ticket shares. */
  datatype ShareRow = ShareRow(id: RowId, demand: real, f: Option<real>, r: Option<real>, s: Option<real>)

  /** A row after the ticket split: demand per ticket type. */
  datatype TicketRow = TicketRow(id: RowId, f: Option<real>, r: Option<real>, s: Option<real>)

  function IdOf(c: ClassRow): RowId
  {
    var k := c.row.stn.key;
    RowId(k.fromZone, k.toZone, k.fromStn, c.row.stn.oTlc, k.toStn, c.row.stn.dTlc, k.userclass, c.purpose)
  }

  function ShareHit(): (ClassRow, TicketShare) -> bool
  {
    (c: ClassRow, t: TicketShare) => c.tagFlow == Some(t.tagFlow) && c.purpose == t.purpose
  }

  function WithShares(c: ClassRow, m: Option<TicketShare>): ShareRow
  {
    match m
    case None => ShareRow(IdOf(c), c.row.stn.demand, None, None, None)
    case Some(t) => ShareRow(IdOf(c), c.row.stn.demand, Some(t.f), Some(t.r), Some(t.s))
  }

  /** The left merge with the ticket-split table on (TAG_Flow, Purpose). */
  function MergeShares(rows: seq<ClassRow>, shares: seq<TicketShare>): (r: seq<ShareRow>)
    ensures |r| >= |rows|
    ensures forall x :: x in r ==> (x.f.Some? <==> x.r.Some?) && (x.r.Some? <==> x.s.Some?)
  {
    LeftJoinAll(rows, shares, ShareHit(), WithShares, (x: ShareRow) => (x.f.Some? <==> x.r.Some?) && (x.r.Some? <==> x.s.Some?));
    LeftJoin(rows, shares, ShareHit(), WithShares)
  }

  /** A share times the demand; a missing share stays missing. */
  function Scaled(share: Option<real>, demand: real): (r: Option<real>)
    ensures r.Some? <==> share.Some?
  {
    if share.Some? then Some(share.value * demand) else None
  }

  /**
   * `apply_ticket_splits`: each ticket column becomes its share times the
   * demand, so the three tickets add up to the row's demand whenever its
   * shares sum to 1, and a missing share stays missing.
   */
  function ApplyTicketSplits(rows: seq<ShareRow>): (r: seq<TicketRow>)
    ensures |r| == |rows|
    ensures forall i :: 0 <= i < |rows| ==> r[i].id == rows[i].id
    ensures forall i :: 0 <= i < |rows| ==>
      (r[i].f.Some? <==> rows[i].f.Some?) && (r[i].r.Some? <==> rows[i].r.Some?) && (r[i].s.Some? <==> rows[i].s.Some?)
    ensures forall i :: 0 <= i < |rows| ==>
      (rows[i].f.Some? ==> r[i].f.value == rows[i].f.value * rows[i].demand) &&
      (rows[i].r.Some? ==> r[i].r.value == rows[i].r.value * rows[i].demand) &&
      (rows[i].s.Some? ==> r[i].s.value == rows[i].s.value * rows[i].demand)
    ensures forall i :: (0 <= i < |rows| && rows[i].f.Some? && rows[i].r.Some? && rows[i].s.Some? &&
      rows[i].f.value + rows[i].r.value + rows[i].s.value == 1.0) ==>
      (r[i].f.value + r[i].r.value + r[i].s.value == rows[i].demand)
  {
    seq(|rows|, i requires 0 <= i < |rows| =>
      TicketRow(rows[i].id, Scaled(rows[i].f, rows[i].demand), Scaled(rows[i].r, rows[i].demand), Scaled(rows[i].s, rows[i].demand)))
  }
}
