/**
 * The EDGE growth run: for every time period and every demand segment, the
 * segment's zone matrix is taken to station movements, classified, split by
 * ticket type, completed with borrowed factors, grown and grouped back to
 * zones; the unfactored share of the demand then decides between stopping
 * and writing the 24-hour NoRMS matrices.
 */
module EdgeRun {
  import opened Wrappers
  import opened Frames
  import opened EdgeStations
  import opened EdgeClassify
  import opened EdgeFactors
  import opened EdgeGrowth
  import opened EdgeCombine

  // ----- the run's fixed tables -----

  const Periods: seq<string> := ["AM", "IP", "PM", "OP"]

  /** The internal from-home segments and their growth methods. */
  const InternalMethods: seq<(string, int)> := [
    ("HBEBCA_Int", 1), ("HBEBNCA_Int", 1), ("NHBEBCA_Int", 2), ("NHBEBNCA_Int", 2), ("HBWCA_Int", 1),
    ("HBWNCA_Int", 2), ("HBOCA_Int", 1), ("HBONCA_Int", 2), ("NHBOCA_Int", 2), ("NHBONCA_Int", 2)]

  /** The external segments and their growth methods. */
  const ExternalMethods: seq<(string, int)> := [
    ("EBCA_Ext_FM", 1), ("EBNCA_Ext", 2), ("HBWCA_Ext_FM", 1), ("HBWNCA_Ext", 2), ("OCA_Ext_FM", 1),
    ("ONCA_Ext", 2), ("EBCA_Ext_TO", 1), ("HBWCA_Ext_TO", 1), ("OCA_Ext_TO", 1)]

  /** The to-home twins of the internal segments ("HBEBCA_Int_T" and so on), with their twin's method. */
  function ToHomeMethods(t: seq<(string, int)>): (r: seq<(string, int)>)
    ensures |r| == |t|
  {
    seq(|t|, i requires 0 <= i < |t| => (ToHome(t[i].0), t[i].1))
  }

  function Names(t: seq<(string, int)>): (r: seq<string>)
    ensures |r| == |t| && forall i :: 0 <= i < |t| ==> r[i] == t[i].0
  {
    if t == [] then [] else [t[0].0] + Names(t[1..])
  }

  /** The to-home segments, whose station movements run from the destination. */
  const InternalToHome: seq<string> := Names(ToHomeMethods(InternalMethods))

  /**
   * The growth method of every segment, in the order the 24-hour matrices are
   * built: the ten internal segments, their ten to-home twins, then the nine
   * external segments.
   */
  const SegmentsMethod: seq<(string, int)> := InternalMethods + ToHomeMethods(InternalMethods) + ExternalMethods

  /** The zone count the averaging and expansion default to. */
  const ModelZones: nat := 1300

  /** A dictionary lookup: the value stored under `k`, or nothing (a KeyError). */
  function Lookup(table: seq<(string, int)>, k: string): (r: Option<int>)
    ensures r.None? <==> forall e :: e in table ==> e.0 != k
    ensures r.Some? ==> (k, r.value) in table
  {
    if table == [] then None
    else if table[0].0 == k then Some(table[0].1)
    else Lookup(table[1..], k)
  }

  function MethodOf(segment: string): Option<int>
  {
    Lookup(SegmentsMethod, segment)
  }

  /** The segment names of the method table. */
  function SegmentNames(): set<string>
  {
    set e | e in SegmentsMethod :: e.0
  }

  /** Every method in the table is 1 or 2. */
  lemma MethodsAreOneOrTwo()
    ensures |SegmentsMethod| == 29
    ensures forall i :: 0 <= i < |SegmentsMethod| ==> SegmentsMethod[i].1 == 1 || SegmentsMethod[i].1 == 2
  {
  }

  /** Each to-home segment follows its from-home twin ten places on, with the same method. */
  lemma ToHomeTwins()
    ensures forall i :: 0 <= i < 10 ==> SegmentsMethod[i + 10] == (ToHome(SegmentsMethod[i].0), SegmentsMethod[i].1)
  {
  }

  /** Every to-home segment has a growth method. */
  lemma ToHomeHaveMethods()
    ensures forall n :: n in InternalToHome ==> MethodOf(n).Some?
  {
    forall j | 0 <= j < |InternalToHome|
      ensures MethodOf(InternalToHome[j]).Some?
    {
      assert SegmentsMethod[10 + j] in SegmentsMethod;
      assert SegmentsMethod[10 + j].0 == InternalToHome[j];
    }
  }

  /** Where each NoRMS segment sits in the method table. */
  const NormsPosition: seq<int> := [0, 1, 2, 3, 4, 5, 6, 7, 8, 9, 20, 26, 21, 22, 27, 23, 24, 28, 25]

  lemma InSegmentNames(k: int)
    requires 0 <= k < |SegmentsMethod|
    ensures SegmentsMethod[k].0 in SegmentNames()
  {
    assert SegmentsMethod[k] in SegmentsMethod;
  }

  lemma NormsPositions()
    ensures forall i :: 0 <= i < 10 ==> NormsPosition[i] == i
    ensures forall i :: 0 <= i < |NormsSegments| ==> 0 <= NormsPosition[i] < |SegmentsMethod| && SegmentsMethod[NormsPosition[i]].0 == NormsSegments[i]
  {
  }

  lemma PlanPositions()
    ensures |AveragingPlan| == |NormsSegments|
    ensures forall i :: 0 <= i < |AveragingPlan| ==> AveragingPlan[i].name == NormsSegments[i] && (AveragingPlan[i].Average? ==> i < 10)
  {
  }

  lemma ReadsAt(i: int)
    requires 0 <= i < |AveragingPlan|
    ensures Reads(AveragingPlan[i]) <= SegmentNames()
  {
    PlanPositions();
    NormsPositions();
    var c := AveragingPlan[i];
    InSegmentNames(NormsPosition[i]);
    assert c.name in SegmentNames();
    if c.Average? {
      ToHomeTwins();
      InSegmentNames(i + 10);
      assert NormsPosition[i] == i;
      assert SegmentsMethod[i].0 == c.name;
      assert SegmentsMethod[i + 10].0 == ToHome(c.name);
    }
  }

  /** Every matrix the averaging plan reads is one the method table produces. */
  lemma PlanReadsSegments()
    ensures forall c :: c in AveragingPlan ==> Reads(c) <= SegmentNames()
  {
    forall i | 0 <= i < |AveragingPlan|
      ensures Reads(AveragingPlan[i]) <= SegmentNames()
    {
      ReadsAt(i);
    }
  }

  // ----- inputs -----

  /** One row of the segment-to-user-class table. */
  datatype SegmentUc = SegmentUc(mx: string, userclass: int)

  /** One row of a period's segment demand file. */
  datatype ZoneDemand = ZoneDemand(fromZone: int, toZone: int, demand: real)

  /**
   * Everything the run reads.  A period's station costs and iRSj
   * probabilities, and a period's segment demand, are present exactly when
   * their file exists.
   */
  datatype RunInputs = RunInputs(
    segmentsToUc: seq<SegmentUc>,
    ticketSplits: seq<TicketShare>,
    flowCats: seq<FlowCat>,
    stations: seq<Station>,
    edgeFlows: seq<EdgeFlow>,
    factors: seq<Factor>,
    dist: map<string, seq<DistRow>>,
    props: map<string, seq<PropRow>>,
    demand: map<(string, string), seq<ZoneDemand>>)

  function DistFile(period: string): string { period + "_stn2stn_costs.csv" }
  function PropsFile(period: string): string { period + "_iRSj_probabilities.h5" }
  function DemandFile(period: string, segment: string): string { period + "_" + segment + ".csv" }

  /** The demand segment list, in the table's order. */
  function SegmentList(inp: RunInputs): (segs: seq<string>)
    ensures |segs| == |inp.segmentsToUc|
  {
    seq(|inp.segmentsToUc|, i requires 0 <= i < |inp.segmentsToUc| => inp.segmentsToUc[i].mx)
  }

  /** The EDGE factor table as read, every row marked Flag 1. */
  function WithEdgeFlag(t: seq<Factor>): (r: seq<Factor>)
    ensures |r| == |t|
    ensures forall i :: 0 <= i < |t| ==> r[i] == t[i].(flag := 1)
  {
    seq(|t|, i requires 0 <= i < |t| => t[i].(flag := 1))
  }

  // ----- numbers -----

  /** Python's `round` on a float: to the nearest integer, ties to the even one. */
  function RoundHalfEven(x: real): (n: int)
    ensures x - 0.5 <= n as real <= x + 0.5
    ensures (n as real - x == 0.5 || x - n as real == 0.5) ==> n % 2 == 0
  {
    var f := x.Floor;
    var d := x - f as real;
    if d < 0.5 then f
    else if d > 0.5 then f + 1
    else if f % 2 == 0 then f
    else f + 1
  }

  /** A float64 percentage, with numpy's results for a zero denominator. */
  datatype Pct = Finite(v: real) | PosInf | NegInf | NaN

  /** `num / den * 100` in numpy. */
  function Ratio(num: real, den: real): (p: Pct)
    ensures p.Finite? <==> den != 0.0
    ensures den != 0.0 ==> p.v * den == num * 100.0
    ensures den == 0.0 ==> (p.PosInf? <==> num > 0.0) && (p.NegInf? <==> num < 0.0) && (p.NaN? <==> num == 0.0)
  {
    if den != 0.0 then Finite(num / den * 100.0)
    else if num > 0.0 then PosInf
    else if num < 0.0 then NegInf
    else NaN
  }

  /** `round(p, 3)`: to three decimals, ties to even; infinities and NaN unchanged. */
  function Round3(p: Pct): (q: Pct)
    ensures p.Finite? <==> q.Finite?
    ensures !p.Finite? ==> q == p
    ensures p.Finite? ==> p.v - 0.0005 <= q.v <= p.v + 0.0005
  {
    if p.Finite? then Finite(RoundHalfEven(p.v * 1000.0) as real / 1000.0) else p
  }

  /** `p > 1`: true for +inf, false for NaN and -inf. */
  predicate Exceeds(p: Pct)
  {
    p.PosInf? || (p.Finite? && p.v > 1.0)
  }

  /**
   * After rounding to three decimals, a finite percentage passes the 1%
   * threshold exactly when it is above 1.0005 (the tie 1.0005 rounds to the
   * even 1.000).
   */
  lemma GateThreshold(num: real, den: real)
    ensures Exceeds(Round3(Ratio(num, den))) <==>
      if den != 0.0 then num / den * 100.0 > 1.0005 else num > 0.0
  {
    if den != 0.0 {
      var y := num / den * 100.0 * 1000.0;
      var n := RoundHalfEven(y);
      assert Round3(Ratio(num, den)).v == n as real / 1000.0;
      if y > 1000.5 {
        assert n as real > 1000.0;
      } else {
        if n == 1001 {
          assert false;
        }
      }
    }
  }

  // ----- one segment -----

  /** The user class of the first table row for the segment. */
  function Userclass(table: seq<SegmentUc>, segment: string): (r: Option<int>)
    ensures r.None? <==> forall t :: t in table ==> t.mx != segment
    ensures r.Some? ==> SegmentUc(segment, r.value) in table
  {
    var hit := (s: string, t: SegmentUc) => t.mx == s;
    var f := FirstMatch(segment, table, hit);
    if f.None? then
      assert forall t :: t in table ==> t.mx != segment by {
        forall t | t in table
          ensures t.mx != segment
        {
          assert t !in Matches(segment, table, hit);
        }
      }
      None
    else Some(f.value.userclass)
  }

  /** Sum of a segment's demand column. */
  function DemandSum(rows: seq<ZoneDemand>): real
  {
    if rows == [] then 0.0 else rows[0].demand + DemandSum(rows[1..])
  }

  /** The demand rows with the user class added, keeping only positive demand. */
  function PositiveDemand(rows: seq<ZoneDemand>, uc: int): (d: seq<DemandRow>)
    ensures |d| <= |rows|
    ensures forall x :: x in d <==> x.demand > 0.0 && x.userclass == uc && ZoneDemand(x.fromZone, x.toZone, x.demand) in rows
  {
    if rows == [] then []
    else
      var z := rows[0];
      var rest := PositiveDemand(rows[1..], uc);
      assert forall w :: w in rows <==> w == z || w in rows[1..];
      (if z.demand > 0.0 then [DemandRow(z.fromZone, z.toZone, uc, z.demand)] else []) + rest
  }

  /**
   * Station preparation (the to-home variant for the to-home segments), EDGE
   * flows, then the distance band and purpose of every movement.
   */
  function Classified(inp: RunInputs, dist: seq<DistRow>, props: seq<PropRow>, segment: string, demand: seq<DemandRow>): seq<ClassRow>
  {
    ClassifyAll(AssignEdgeFlow(inp.edgeFlows, inp.flowCats, Prepare(demand, props, dist, inp.stations, segment in InternalToHome)))
  }

  /** The growth method the segment table names: 1, or 2 for anything else. */
  function Grow(mx: seq<TicketRow>, factors: seq<Factor>, growth: int): seq<Grown>
  {
    if growth == 1 then Method1(mx, factors) else Method2(mx, factors)
  }

  /** The run's loop variables. */
  datatype RunState = RunState(
    demandTotal: int,
    factors: seq<Factor>,
    otherTickets: seq<Entry<OtherKey>>,
    noFactors: seq<Entry<NoFactorKey>>,
    factored: map<(string, string), Matrix>)

  /** The run goes on with a state, or has stopped with an outcome. */
  datatype Progress = Running(st: RunState) | Stopped(out: Outcome)

  datatype RunError =
    | UnknownSegment(segment: string)
    | NoUserclass(segment: string)
    | MissingPeriodMatrix(period: string, segment: string)
    | EmptyAudit
    | CombineFailed(error: CombineError)

  /** The tables `prepare_logging_info` returns, with its four percentages. */
  datatype TicketLogKey = TicketLogKey(codeFrom: string, codeTo: string, purpose: string, missing: string, available: string)

  datatype LogInfo = LogInfo(
    otherTickets: seq<Entry<TicketLogKey>>,
    noFactors: seq<Entry<(string, string)>>,
    noFactorPct: Pct,
    ticketsPct: Pct,
    ticketsInternalPct: Pct,
    factorsInternalPct: Pct)

  /** How the run ends: a missing file or a raised error, the gate, or the written matrices. */
  datatype Outcome =
    | FileMissing(file: string)
    | Raised(error: RunError)
    | GateStopped(info: LogInfo)
    | Written(matrices: map<string, Matrix>, info: LogInfo)

  /**
   * The rest of a segment once it is classified: ticket splits, missing
   * factors borrowed into the running table, growth, and the zone totals
   * stored for the period.
   */
  function Advance(inp: RunInputs, period: string, st: RunState, segment: string, rows: seq<ZoneDemand>, classified: seq<ClassRow>, growth: int): (r: RunState)
    ensures st.otherTickets <= r.otherTickets && st.noFactors <= r.noFactors
    ensures r.factored.Keys == st.factored.Keys + {(period, segment)}
    ensures forall k :: k in st.factored && k != (period, segment) ==> r.factored[k] == st.factored[k]
  {
    var mx := ApplyTicketSplits(MergeShares(classified, inp.ticketSplits));
    var res := Resolve(mx, st.factors, InternalAsWritten);
    RunState(
      st.demandTotal + RoundHalfEven(DemandSum(rows)),
      res.factors,
      st.otherTickets + res.otherTickets,
      st.noFactors + res.noFactors,
      st.factored[(period, segment) := ZoneTotals(Grow(mx, res.factors, growth))])
  }

  /** One segment of one period, as the inner loop body runs it. */
  function SegStep(inp: RunInputs, period: string, dist: seq<DistRow>, props: seq<PropRow>, p: Progress, segment: string): (r: Progress)
    ensures p.Stopped? ==> r == p
    ensures p.Running? && r.Stopped? ==> r.out.FileMissing? || r.out.Raised?
    ensures p.Running? && (period, segment) !in inp.demand ==> r == Stopped(FileMissing(DemandFile(period, segment)))
    ensures r.Running? <==>
      p.Running? && (period, segment) in inp.demand && Userclass(inp.segmentsToUc, segment).Some? && MethodOf(segment).Some?
    ensures r.Running? ==> (period, segment) in r.st.factored && p.st.factored.Keys <= r.st.factored.Keys
  {
    match p
    case Stopped(_) => p
    case Running(st) =>
      if (period, segment) !in inp.demand then Stopped(FileMissing(DemandFile(period, segment)))
      else
        var rows := inp.demand[(period, segment)];
        match Userclass(inp.segmentsToUc, segment)
        case None => Stopped(Raised(NoUserclass(segment)))
        case Some(uc) =>
          match MethodOf(segment)
          case None => Stopped(Raised(UnknownSegment(segment)))
          case Some(m) =>
            Running(Advance(inp, period, st, segment, rows, Classified(inp, dist, props, segment, PositiveDemand(rows, uc)), m))
  }

  function SegFold(inp: RunInputs, period: string, dist: seq<DistRow>, props: seq<PropRow>, p: Progress, segs: seq<string>): Progress
    decreases |segs|
  {
    if segs == [] then p
    else SegFold(inp, period, dist, props, SegStep(inp, period, dist, props, p, segs[0]), segs[1..])
  }

  /** One period: its two files are checked, then every segment is processed. */
  function PeriodStep(inp: RunInputs, p: Progress, period: string): Progress
  {
    if p.Stopped? then p
    else if period !in inp.dist then Stopped(FileMissing(DistFile(period)))
    else if period !in inp.props then Stopped(FileMissing(PropsFile(period)))
    else SegFold(inp, period, inp.dist[period], inp.props[period], p, SegmentList(inp))
  }

  function PeriodFold(inp: RunInputs, p: Progress, periods: seq<string>): Progress
    decreases |periods|
  {
    if periods == [] then p
    else PeriodFold(inp, PeriodStep(inp, p, periods[0]), periods[1..])
  }

  function InitialState(inp: RunInputs): RunState
  {
    RunState(0, WithEdgeFlag(inp.factors), [], [], map[])
  }

  // ----- logging and the gate -----

  function TicketLogRows(s: seq<Entry<OtherKey>>): (r: seq<Entry<TicketLogKey>>)
    ensures |r| == |s|
    ensures SumValues(r) == SumValues(s)
  {
    if s == [] then []
    else
      var k := s[0].key;
      [Entry(TicketLogKey(k.codeFrom, k.codeTo, k.purpose, k.missing, k.available), s[0].value)] + TicketLogRows(s[1..])
  }

  function NoFactorLogRows(s: seq<Entry<NoFactorKey>>): (r: seq<Entry<(string, string)>>)
    ensures |r| == |s|
    ensures SumValues(r) == SumValues(s)
  {
    if s == [] then []
    else [Entry((s[0].key.codeFrom, s[0].key.codeTo), s[0].value)] + NoFactorLogRows(s[1..])
  }

  /** The audit rows flagged Internal. */
  predicate InternalTicket(k: OtherKey)
  {
    k.internal == 1
  }

  predicate InternalNoFactor(k: NoFactorKey)
  {
    k.internal == 1
  }

  /**
   * `prepare_logging_info`: the audits grouped per key, the four rounded
   * percentages, and the audits regrouped without the Internal flag.  The
   * logged tables keep the audits' totals; the internal percentages are the
   * Internal-flagged share of each audit.
   */
  function LoggingInfo(st: RunState): (info: LogInfo)
    ensures SumValues(info.otherTickets) == SumValues(st.otherTickets)
    ensures SumValues(info.noFactors) == SumValues(st.noFactors)
    ensures DistinctKeys(info.otherTickets) && DistinctKeys(info.noFactors)
    ensures info.noFactorPct == Round3(Ratio(SumValues(st.noFactors), st.demandTotal as real))
    ensures info.ticketsPct == Round3(Ratio(SumValues(st.otherTickets), st.demandTotal as real))
    ensures info.ticketsInternalPct == Round3(Ratio(SumWhere(st.otherTickets, InternalTicket), SumValues(st.otherTickets)))
    ensures info.factorsInternalPct == Round3(Ratio(SumWhere(st.noFactors, InternalNoFactor), SumValues(st.noFactors)))
  {
    var tickets := GroupSum(st.otherTickets);
    var noFactors := GroupSum(st.noFactors);
    var ticketTotal := SumValues(tickets);
    var factorTotal := SumValues(noFactors);
    GroupSumWhere(st.otherTickets, InternalTicket);
    GroupSumWhere(st.noFactors, InternalNoFactor);
    LogInfo(
      GroupSum(TicketLogRows(tickets)),
      GroupSum(NoFactorLogRows(noFactors)),
      Round3(Ratio(factorTotal, st.demandTotal as real)),
      Round3(Ratio(ticketTotal, st.demandTotal as real)),
      Round3(Ratio(SumWhere(tickets, InternalTicket), ticketTotal)),
      Round3(Ratio(SumWhere(noFactors, InternalNoFactor), factorTotal)))
  }

  /** With no audit row flagged Internal, both internal percentages are 0, or NaN for an empty audit. */
  lemma NoInternalLogged(st: RunState)
    requires forall k :: k in KeySet(st.otherTickets) ==> k.internal == 0
    requires forall k :: k in KeySet(st.noFactors) ==> k.internal == 0
    ensures LoggingInfo(st).ticketsInternalPct == if SumValues(st.otherTickets) == 0.0 then NaN else Finite(0.0)
    ensures LoggingInfo(st).factorsInternalPct == if SumValues(st.noFactors) == 0.0 then NaN else Finite(0.0)
  {
    SumWhereNone(st.otherTickets, InternalTicket);
    SumWhereNone(st.noFactors, InternalNoFactor);
    assert RoundHalfEven(0.0) == 0;
  }

  // ----- 24-hour matrices -----

  /** `sum_periods_demand` over the four periods' matrices of a segment; KeyError on the first missing one. */
  function DailyOne(factored: map<(string, string), Matrix>, segment: string): Result<Matrix, RunError>
  {
    if ("AM", segment) !in factored then Failure(MissingPeriodMatrix("AM", segment))
    else if ("IP", segment) !in factored then Failure(MissingPeriodMatrix("IP", segment))
    else if ("PM", segment) !in factored then Failure(MissingPeriodMatrix("PM", segment))
    else if ("OP", segment) !in factored then Failure(MissingPeriodMatrix("OP", segment))
    else Success(SumPeriods(factored[("AM", segment)], factored[("IP", segment)], factored[("PM", segment)], factored[("OP", segment)]))
  }

  /** The 24-hour matrices of the listed segments, added to `acc` in order. */
  function DailyFrom(factored: map<(string, string), Matrix>, segs: seq<(string, int)>, acc: map<string, Matrix>): Result<map<string, Matrix>, RunError>
    decreases |segs|
  {
    if segs == [] then Success(acc)
    else
      match DailyOne(factored, segs[0].0)
      case Failure(e) => Failure(e)
      case Success(m) => DailyFrom(factored, segs[1..], acc[segs[0].0 := m])
  }

  /**
   * After the loops: the logging summary (a KeyError when no segment was ever
   * processed), then the 1% gate, then the 24-hour matrices combined into the
   * NoRMS segments.  The gate stops the run exactly when the rounded
   * unfactored percentage exceeds 1.
   */
  function Finish(inp: RunInputs, st: RunState): (o: Outcome)
    ensures inp.segmentsToUc == [] ==> o == Raised(EmptyAudit)
    ensures inp.segmentsToUc != [] ==>
      (o.GateStopped? <==> Exceeds(Round3(Ratio(SumValues(st.noFactors), st.demandTotal as real))))
    ensures o.Written? ==> !Exceeds(o.info.noFactorPct)
  {
    if inp.segmentsToUc == [] then Raised(EmptyAudit)
    else
      var info := LoggingInfo(st);
      if Exceeds(info.noFactorPct) then GateStopped(info)
      else
        match DailyFrom(st.factored, SegmentsMethod, map[])
        case Failure(e) => Raised(e)
        case Success(daily) => Combined(daily, info)
  }

  /** `fromto_2_from_by_averaging` over the 24-hour matrices, then the write. */
  function Combined(daily: map<string, Matrix>, info: LogInfo): Outcome
  {
    match CombineAll(daily, AveragingPlan, ModelZones)
    case Failure(e) => Raised(CombineFailed(e))
    case Success(m) => Written(m, info)
  }

  /** `run_edge_growth` as a whole. */
  function RunSpec(inp: RunInputs): Outcome
  {
    match PeriodFold(inp, Running(InitialState(inp)), Periods)
    case Stopped(o) => o
    case Running(st) => Finish(inp, st)
  }

  // ----- the run, as the loops perform it -----

  /** The body of the segment loop. */
  method ProcessSegment(inp: RunInputs, period: string, dist: seq<DistRow>, props: seq<PropRow>, st: RunState, segment: string)
    returns (q: Progress)
    ensures q == SegStep(inp, period, dist, props, Running(st), segment)
  {
    if (period, segment) !in inp.demand {
      return Stopped(FileMissing(DemandFile(period, segment)));
    }
    var rows := inp.demand[(period, segment)];
    var uc := Userclass(inp.segmentsToUc, segment);
    if uc.None? {
      return Stopped(Raised(NoUserclass(segment)));
    }
    var demand := PositiveDemand(rows, uc.value);
    var flowed := AssignEdgeFlow(inp.edgeFlows, inp.flowCats, Prepare(demand, props, dist, inp.stations, segment in InternalToHome));
    var classified := ClassifyRows(flowed);
    var growth := MethodOf(segment);
    if growth.None? {
      return Stopped(Raised(UnknownSegment(segment)));
    }
    q := Running(Advance(inp, period, st, segment, rows, classified, growth.value));
  }

  lemma {:induction false} SegStoppedStays(inp: RunInputs, period: string, dist: seq<DistRow>, props: seq<PropRow>, o: Outcome, segs: seq<string>)
    ensures SegFold(inp, period, dist, props, Stopped(o), segs) == Stopped(o)
    decreases |segs|
  {
    if segs != [] {
      SegStoppedStays(inp, period, dist, props, o, segs[1..]);
    }
  }

  lemma {:induction false} PeriodStoppedStays(inp: RunInputs, o: Outcome, periods: seq<string>)
    ensures PeriodFold(inp, Stopped(o), periods) == Stopped(o)
    decreases |periods|
  {
    if periods != [] {
      PeriodStoppedStays(inp, o, periods[1..]);
    }
  }

  /** The segment loop of one period: every segment in turn, stopping at the first missing file or error. */
  method ProcessPeriod(inp: RunInputs, period: string, dist: seq<DistRow>, props: seq<PropRow>, st: RunState, segs: seq<string>)
    returns (q: Progress)
    ensures q == SegFold(inp, period, dist, props, Running(st), segs)
  {
    var cur := st;
    var j := 0;
    while j < |segs|
      invariant 0 <= j <= |segs|
      invariant SegFold(inp, period, dist, props, Running(cur), segs[j..]) == SegFold(inp, period, dist, props, Running(st), segs)
    {
      assert segs[j..][0] == segs[j] && segs[j..][1..] == segs[j + 1..];
      var r := ProcessSegment(inp, period, dist, props, cur, segs[j]);
      if r.Stopped? {
        SegStoppedStays(inp, period, dist, props, r.out, segs[j + 1..]);
        return r;
      }
      cur := r.st;
      j := j + 1;
    }
    q := Running(cur);
  }

  /**
   * `run_edge_growth`: the period loop with its file checks, the segment loop,
   * then the summary, the gate and the NoRMS combination.
   */
  method RunEdgeGrowth(inp: RunInputs) returns (o: Outcome)
    ensures o == RunSpec(inp)
  {
    var init := InitialState(inp);
    var st := init;
    var segs := SegmentList(inp);
    var i := 0;
    while i < |Periods|
      invariant 0 <= i <= |Periods|
      invariant PeriodFold(inp, Running(st), Periods[i..]) == PeriodFold(inp, Running(init), Periods)
    {
      var period := Periods[i];
      assert Periods[i..][0] == period && Periods[i..][1..] == Periods[i + 1..];
      if period !in inp.dist {
        o := FileMissing(DistFile(period));
        PeriodStoppedStays(inp, o, Periods[i + 1..]);
        return;
      }
      if period !in inp.props {
        o := FileMissing(PropsFile(period));
        PeriodStoppedStays(inp, o, Periods[i + 1..]);
        return;
      }
      var q := ProcessPeriod(inp, period, inp.dist[period], inp.props[period], st, segs);
      if q.Stopped? {
        o := q.out;
        PeriodStoppedStays(inp, o, Periods[i + 1..]);
        return;
      }
      st := q.st;
      i := i + 1;
    }
    o := FinishRun(inp, st);
  }

  /** The 24-hour frames: one fresh frame per segment of the method table, or the first KeyError. */
  method DailyFrames(factored: map<(string, string), Matrix>, segs: seq<(string, int)>) returns (frames: map<string, ZoneFrame>, err: Option<RunError>)
    ensures err.Some? ==> DailyFrom(factored, segs, map[]) == Failure(err.value)
    ensures err.None? ==> DailyFrom(factored, segs, map[]) == Success(Contents(frames))
    ensures Separate(frames)
    ensures forall x :: x in frames ==> fresh(frames[x])
  {
    frames := map[];
    var daily: map<string, Matrix> := map[];
    var k := 0;
    while k < |segs|
      invariant 0 <= k <= |segs|
      invariant DailyFrom(factored, segs[k..], daily) == DailyFrom(factored, segs, map[])
      invariant forall x :: x in frames ==> fresh(frames[x])
      invariant Separate(frames)
      invariant frames.Keys == daily.Keys
      invariant forall x :: x in frames ==> frames[x].rows == daily[x]
    {
      var segment := segs[k].0;
      assert segs[k..][0].0 == segment && segs[k..][1..] == segs[k + 1..];
      var m := DailyOne(factored, segment);
      if m.Failure? {
        return frames, Some(m.error);
      }
      var f := new ZoneFrame(m.value);
      frames := frames[segment := f];
      daily := daily[segment := m.value];
      k := k + 1;
    }
    assert Contents(frames) == daily;
    err := None;
  }

  /**
   * After the loops: the gate, then the 24-hour frames, combined in place by
   * the averaging plan.
   */
  method FinishRun(inp: RunInputs, st: RunState) returns (o: Outcome)
    ensures o == Finish(inp, st)
  {
    if inp.segmentsToUc == [] {
      return Raised(EmptyAudit);
    }
    var info := LoggingInfo(st);
    if Exceeds(info.noFactorPct) {
      return GateStopped(info);
    }
    var frames, err := DailyFrames(st.factored, SegmentsMethod);
    if err.Some? {
      return Raised(err.value);
    }
    PlansProduceNormsSegments();
    var r := CombineFrames(frames, AveragingPlan, ModelZones);
    match r
    case Failure(e) =>
      o := Raised(CombineFailed(e));
    case Success(mats) =>
      o := Written(mats, info);
  }

  // ----- what the run keeps -----

  /**
   * The run's invariant: the factor table stays authoritative (every borrowed
   * rate is an EDGE factor's), every grown zone matrix has one row per zone
   * pair, and no audit row is flagged Internal.
   */
  predicate StateOk(st: RunState)
  {
    Authoritative(st.factors) &&
    (forall k :: k in st.factored ==> DistinctKeys(st.factored[k])) &&
    (forall k :: k in KeySet(st.otherTickets) ==> k.internal == 0) &&
    (forall k :: k in KeySet(st.noFactors) ==> k.internal == 0)
  }

  lemma AdvanceOk(inp: RunInputs, period: string, st: RunState, segment: string, rows: seq<ZoneDemand>, classified: seq<ClassRow>, growth: int)
    requires StateOk(st)
    ensures StateOk(Advance(inp, period, st, segment, rows, classified, growth))
  {
    var mx := ApplyTicketSplits(MergeShares(classified, inp.ticketSplits));
    var res := Resolve(mx, st.factors, InternalAsWritten);
    ResolvePreservesAuthority(mx, st.factors, InternalAsWritten);
    NoInternalKeys(mx, st.factors);
    ConcatFacts(st.otherTickets, res.otherTickets);
    ConcatFacts(st.noFactors, res.noFactors);
  }

  /**
   * Each processed segment adds its unfactored demand to the no-factor audit
   * (the gate's numerator) and its substituted demand to the ticket audit.
   */
  lemma AdvanceAudits(inp: RunInputs, period: string, st: RunState, segment: string, rows: seq<ZoneDemand>, classified: seq<ClassRow>, growth: int)
    ensures var mx := ApplyTicketSplits(MergeShares(classified, inp.ticketSplits));
      var kept := Rated(st.factors);
      var missing := MissingRows(Melt(mx), kept);
      var next := Advance(inp, period, st, segment, rows, classified, growth);
      SumValues(next.noFactors) == SumValues(st.noFactors) + UnfactoredDemand(missing, kept) &&
      SumValues(next.otherTickets) == SumValues(st.otherTickets) + SubstitutedDemand(missing, kept)
  {
    var mx := ApplyTicketSplits(MergeShares(classified, inp.ticketSplits));
    var res := Resolve(mx, st.factors, InternalAsWritten);
    ResolveAudits(mx, st.factors, InternalAsWritten);
    SumValuesConcat(st.noFactors, res.noFactors);
    SumValuesConcat(st.otherTickets, res.otherTickets);
  }

  lemma SegStepOk(inp: RunInputs, period: string, dist: seq<DistRow>, props: seq<PropRow>, st: RunState, segment: string)
    requires StateOk(st)
    ensures var q := SegStep(inp, period, dist, props, Running(st), segment); q.Running? ==> StateOk(q.st)
  {
    if (period, segment) in inp.demand {
      var rows := inp.demand[(period, segment)];
      var uc := Userclass(inp.segmentsToUc, segment);
      var growth := MethodOf(segment);
      if uc.Some? && growth.Some? {
        AdvanceOk(inp, period, st, segment, rows, Classified(inp, dist, props, segment, PositiveDemand(rows, uc.value)), growth.value);
      }
    }
  }

  /** The loops stop early only on a missing file or a raised error. */
  predicate ProgressOk(p: Progress)
  {
    match p
    case Running(st) => StateOk(st)
    case Stopped(o) => o.FileMissing? || o.Raised?
  }

  lemma {:induction false} SegFoldOk(inp: RunInputs, period: string, dist: seq<DistRow>, props: seq<PropRow>, p: Progress, segs: seq<string>)
    requires ProgressOk(p)
    ensures ProgressOk(SegFold(inp, period, dist, props, p, segs))
    decreases |segs|
  {
    if segs != [] {
      if p.Running? {
        SegStepOk(inp, period, dist, props, p.st, segs[0]);
      }
      SegFoldOk(inp, period, dist, props, SegStep(inp, period, dist, props, p, segs[0]), segs[1..]);
    }
  }

  lemma {:induction false} PeriodFoldOk(inp: RunInputs, p: Progress, periods: seq<string>)
    requires ProgressOk(p)
    ensures ProgressOk(PeriodFold(inp, p, periods))
    decreases |periods|
  {
    if periods != [] {
      var period := periods[0];
      if p.Running? && period in inp.dist && period in inp.props {
        SegFoldOk(inp, period, inp.dist[period], inp.props[period], p, SegmentList(inp));
      }
      PeriodFoldOk(inp, PeriodStep(inp, p, period), periods[1..]);
    }
  }

  /**
   * Over the whole run the factor table stays authoritative: however many
   * segments borrow from rows an earlier segment borrowed, each rate used is
   * the rate of an EDGE factor of the same movement.  The loops stop early
   * only on a missing file or an error.
   */
  lemma RunKeepsAuthority(inp: RunInputs)
    ensures var q := PeriodFold(inp, Running(InitialState(inp)), Periods);
      (q.Running? ==> StateOk(q.st)) &&
      (q.Stopped? ==> q.out.FileMissing? || q.out.Raised?)
  {
    EdgeTableAuthoritative(WithEdgeFlag(inp.factors));
    PeriodFoldOk(inp, Running(InitialState(inp)), Periods);
  }

  /**
   * As the resolver leaves the Internal flag at 0, a run that reaches the
   * summary logs both internal percentages as 0, or NaN for an empty audit.
   */
  lemma RunLogsNoInternal(inp: RunInputs)
    ensures var o := RunSpec(inp);
      o.GateStopped? || o.Written? ==>
        (o.info.ticketsInternalPct == Finite(0.0) || o.info.ticketsInternalPct == NaN) &&
        (o.info.factorsInternalPct == Finite(0.0) || o.info.factorsInternalPct == NaN)
  {
    RunKeepsAuthority(inp);
    var q := PeriodFold(inp, Running(InitialState(inp)), Periods);
    if q.Running? {
      NoInternalLogged(q.st);
    }
  }

  lemma {:induction false} DailyFromFacts(factored: map<(string, string), Matrix>, segs: seq<(string, int)>, acc: map<string, Matrix>)
    requires forall k :: k in factored ==> DistinctKeys(factored[k])
    requires forall n :: n in acc ==> DistinctKeys(acc[n])
    ensures var r := DailyFrom(factored, segs, acc);
      r.Success? ==> r.value.Keys == acc.Keys + (set e | e in segs :: e.0) && forall n :: n in r.value ==> DistinctKeys(r.value[n])
    decreases |segs|
  {
    if segs != [] {
      var s := segs[0].0;
      var d := DailyOne(factored, s);
      if d.Success? {
        SumPeriodsSpec(factored[("AM", s)], factored[("IP", s)], factored[("PM", s)], factored[("OP", s)]);
        DailyFromFacts(factored, segs[1..], acc[s := d.value]);
        assert forall e :: e in segs <==> e == segs[0] || e in segs[1..];
      }
    }
  }

  /** The averaging plan's outputs are exactly the NoRMS segments. */
  lemma PlanNames()
    ensures (set c | c in AveragingPlan :: c.name) == set n | n in NormsSegments
  {
    PlansProduceNormsSegments();
    forall n | n in NormsSegments
      ensures n in set c | c in AveragingPlan :: c.name
    {
      var i :| 0 <= i < |NormsSegments| && NormsSegments[i] == n;
      assert AveragingPlan[i] in AveragingPlan;
    }
  }

  /**
   * A written outcome holds one matrix per NoRMS segment, each with one row
   * per zone pair and covering every pair of the model zones.
   */
  ghost predicate CoversNorms(o: Outcome)
  {
    o.Written? ==>
      o.matrices.Keys == (set n | n in NormsSegments) &&
      forall n :: n in o.matrices ==>
        DistinctKeys(o.matrices[n]) && forall k :: InGrid(k, ModelZones) ==> k in KeySet(o.matrices[n])
  }

  /**
   * Combining 24-hour matrices for every segment of the method table, each
   * with one row per zone pair, writes every NoRMS segment over the whole
   * zone grid.
   */
  lemma CombinedCoverGridAll(daily: map<string, Matrix>, info: LogInfo)
    requires daily.Keys == SegmentNames()
    requires forall n :: n in daily ==> DistinctKeys(daily[n])
    ensures Combined(daily, info).Written?
    ensures CoversNorms(Combined(daily, info))
  {
    PlanReadsSegments();
    CombinedCoverGrid(daily, AveragingPlan, ModelZones);
    PlanNames();
  }

  lemma FinishNotWritten(inp: RunInputs, st: RunState)
    requires inp.segmentsToUc == [] || Exceeds(LoggingInfo(st).noFactorPct) || DailyFrom(st.factored, SegmentsMethod, map[]).Failure?
    ensures !Finish(inp, st).Written?
  {
  }

  lemma FinishCombines(inp: RunInputs, st: RunState)
    requires inp.segmentsToUc != [] && !Exceeds(LoggingInfo(st).noFactorPct) && DailyFrom(st.factored, SegmentsMethod, map[]).Success?
    ensures Finish(inp, st) == Combined(DailyFrom(st.factored, SegmentsMethod, map[]).value, LoggingInfo(st))
  {
  }

  lemma DailyCovers(st: RunState)
    requires StateOk(st)
    requires DailyFrom(st.factored, SegmentsMethod, map[]).Success?
    ensures CoversNorms(Combined(DailyFrom(st.factored, SegmentsMethod, map[]).value, LoggingInfo(st)))
  {
    var daily := DailyFrom(st.factored, SegmentsMethod, map[]).value;
    DailyFromFacts(st.factored, SegmentsMethod, map[]);
    assert daily.Keys == SegmentNames();
    CombinedCoverGridAll(daily, LoggingInfo(st));
  }

  /** The writing step, from any state the loops leave. */
  lemma FinishWrites(inp: RunInputs, st: RunState)
    requires StateOk(st)
    ensures CoversNorms(Finish(inp, st))
  {
    if inp.segmentsToUc == [] || Exceeds(LoggingInfo(st).noFactorPct) || DailyFrom(st.factored, SegmentsMethod, map[]).Failure? {
      FinishNotWritten(inp, st);
    } else {
      FinishCombines(inp, st);
      DailyCovers(st);
    }
  }

  /**
   * What the run writes: when it reaches the writing step, the unfactored
   * share has passed the gate, and every NoRMS segment has a matrix with one
   * row per zone pair covering every pair of the 1300 model zones.
   */
  lemma WrittenCoverNorms(inp: RunInputs)
    ensures RunSpec(inp).Written? ==> !Exceeds(RunSpec(inp).info.noFactorPct)
    ensures CoversNorms(RunSpec(inp))
  {
    RunKeepsAuthority(inp);
    var q := PeriodFold(inp, Running(InitialState(inp)), Periods);
    if q.Running? {
      FinishWrites(inp, q.st);
    }
  }
}
