/**
 * Combining the grown matrices: the four periods are summed into a 24-hour
 * matrix, and the From/To segments are brought back to the 19 NoRMS segments,
 * either by averaging a from-home matrix with its transposed to-home
 * counterpart or by expanding a matrix to the full zone grid.
 */
module EdgeCombine {
  import opened Wrappers
  import opened Frames

  /** (from_model_zone_id, to_model_zone_id). */
  type ZonePair = (int, int)

  /** A long-format zone-to-zone matrix: one demand value per zone pair. */
  type Matrix = seq<Entry<ZonePair>>

  // ----- transposition -----

  /** The zone pair with origin and destination swapped. */
  function Swap(k: ZonePair): ZonePair
  {
    (k.1, k.0)
  }

  /** The matrix with origin and destination swapped on every row. */
  function Transposed(m: Matrix): (t: Matrix)
    ensures |t| == |m|
    ensures forall i :: 0 <= i < |m| ==> t[i].value == m[i].value && t[i].key == Swap(m[i].key)
  {
    if m == [] then [] else [Entry(Swap(m[0].key), m[0].value)] + Transposed(m[1..])
  }

  /** Transposing twice gives the matrix back. */
  lemma TransposedTwice(m: Matrix)
    ensures Transposed(Transposed(m)) == m
  {
    var t := Transposed(Transposed(m));
    assert forall i :: 0 <= i < |m| ==> t[i] == m[i];
  }

  /** The transposed matrix holds at (a, b) what the matrix holds at (b, a). */
  lemma {:induction false} TransposedValueAt(m: Matrix, k: ZonePair)
    ensures ValueAt(Transposed(m), k) == ValueAt(m, Swap(k))
  {
    if m != [] {
      TransposedValueAt(m[1..], k);
      assert Swap(m[0].key) == k <==> m[0].key == Swap(k);
    }
  }

  lemma {:induction false} TransposedKeys(m: Matrix)
    ensures forall k :: k in KeySet(Transposed(m)) <==> Swap(k) in KeySet(m)
  {
    if m != [] {
      TransposedKeys(m[1..]);
      forall k: ZonePair
        ensures Swap(m[0].key) == k <==> m[0].key == Swap(k)
      {
      }
    }
  }

  lemma {:induction false} TransposedDistinct(m: Matrix)
    requires DistinctKeys(m)
    ensures DistinctKeys(Transposed(m))
  {
    if m != [] {
      TransposedDistinct(m[1..]);
      TransposedKeys(m[1..]);
      var k := m[0].key;
      assert Transposed(m)[1..] == Transposed(m[1..]);
      assert Swap(Swap(k)) == k;
    }
  }

  /** A pandas frame holding a matrix; `transpose_matrix` rewrites its zone columns in place. */
  class ZoneFrame {
    var rows: Matrix

    constructor(rows: Matrix)
      ensures this.rows == rows
    {
      this.rows := rows;
    }

    /**
     * `transpose_matrix`: the swapped zone columns are written into this frame
     * (the caller's frame), and the returned frame holds the same rows.
     */
    method TransposeMatrix() returns (t: Matrix)
      modifies this
      ensures rows == Transposed(old(rows))
      ensures t == rows
    {
      var src := rows;
      var out: Matrix := [];
      var i := 0;
      while i < |src|
        invariant 0 <= i <= |src|
        invariant out == Transposed(src[..i])
      {
        assert src[..i + 1] == src[..i] + [src[i]];
        TransposedConcat(src[..i], [src[i]]);
        out := out + [Entry(Swap(src[i].key), src[i].value)];
        i := i + 1;
      }
      assert src[..i] == src;
      rows := out;
      t := out;
    }
  }

  lemma {:induction false} TransposedConcat(a: Matrix, b: Matrix)
    ensures Transposed(a + b) == Transposed(a) + Transposed(b)
  {
    if a != [] {
      assert (a + b)[1..] == a[1..] + b;
      TransposedConcat(a[1..], b);
    } else {
      assert a + b == b;
    }
  }

  // ----- the full zone grid -----

  /** Zone pair inside the 1..zones grid. */
  predicate InGrid(k: ZonePair, zones: int)
  {
    1 <= k.0 <= zones && 1 <= k.1 <= zones
  }

  function GridRow(i: int, zones: nat): (r: Matrix)
    ensures |r| == zones
  {
    seq(zones, j requires 0 <= j < zones => Entry((i, j + 1), 0.0))
  }

  function GridFrom(i: int, zones: nat): Matrix
    decreases zones + 1 - i
  {
    if i > zones then [] else GridRow(i, zones) + GridFrom(i + 1, zones)
  }

  /** `itertools.product(range(1, zones + 1), range(1, zones + 1))`, with no demand column yet. */
  function Grid(zones: nat): Matrix
  {
    GridFrom(1, zones)
  }

  lemma GridRowFacts(i: int, zones: nat)
    ensures DistinctKeys(GridRow(i, zones))
    ensures forall k :: k in KeySet(GridRow(i, zones)) <==> k.0 == i && 1 <= k.1 <= zones
    ensures forall k :: ValueAt(GridRow(i, zones), k) == 0.0
  {
    var r := GridRow(i, zones);
    DistinctByIndex(r);
    forall k: ZonePair
      ensures k in KeySet(r) <==> k.0 == i && 1 <= k.1 <= zones
    {
      KeySetIndex(r, k);
      if k.0 == i && 1 <= k.1 <= zones {
        assert r[k.1 - 1].key == k;
      }
    }
    forall k: ZonePair
      ensures ValueAt(r, k) == 0.0
    {
      ValueAtZeroRows(r, k);
    }
  }

  lemma {:induction false} GridFromFacts(i: int, zones: nat)
    ensures DistinctKeys(GridFrom(i, zones))
    ensures forall k :: k in KeySet(GridFrom(i, zones)) <==> i <= k.0 <= zones && 1 <= k.1 <= zones
    ensures forall k :: ValueAt(GridFrom(i, zones), k) == 0.0
    decreases zones + 1 - i
  {
    if i <= zones {
      var a := GridRow(i, zones);
      var b := GridFrom(i + 1, zones);
      GridRowFacts(i, zones);
      GridFromFacts(i + 1, zones);
      ConcatFacts(a, b);
      assert GridFrom(i, zones) == a + b;
      forall k: ZonePair
        ensures ValueAt(GridFrom(i, zones), k) == 0.0
      {
        assert ValueAt(a + b, k) == ValueAt(a, k) + ValueAt(b, k);
      }
    }
  }

  /** The grid has every zone pair of 1..zones exactly once, with value 0. */
  lemma GridFacts(zones: nat)
    ensures DistinctKeys(Grid(zones))
    ensures forall k :: k in KeySet(Grid(zones)) <==> InGrid(k, zones)
    ensures forall k :: ValueAt(Grid(zones), k) == 0.0
  {
    GridFromFacts(1, zones);
  }

  // ----- expansion, averaging and the 24-hour sum -----

  /** `expand_matrix`: an outer merge with the grid, missing demand filled with 0. */
  function ExpandMatrix(mx: Matrix, zones: nat): Matrix
  {
    OuterSum(Grid(zones), mx)
  }

  /**
   * The expanded matrix has every grid pair (and keeps pairs outside the
   * grid), each with the matrix's demand, 0 where the matrix had none.
   */
  lemma ExpandMatrixSpec(mx: Matrix, zones: nat)
    requires DistinctKeys(mx)
    ensures DistinctKeys(ExpandMatrix(mx, zones))
    ensures forall k :: k in KeySet(ExpandMatrix(mx, zones)) <==> InGrid(k, zones) || k in KeySet(mx)
    ensures forall k :: ValueAt(ExpandMatrix(mx, zones), k) == ValueAt(mx, k)
  {
    GridFacts(zones);
    OuterSumSpec(Grid(zones), mx);
    forall k: ZonePair
      ensures ValueAt(ExpandMatrix(mx, zones), k) == ValueAt(mx, k)
    {
      assert ValueAt(OuterSum(Grid(zones), mx), k) == ValueAt(Grid(zones), k) + ValueAt(mx, k);
    }
  }

  /** Every demand halved. */
  function Halved(m: Matrix): (h: Matrix)
    ensures |h| == |m|
    ensures forall i :: 0 <= i < |m| ==> h[i].key == m[i].key && h[i].value == m[i].value / 2.0
  {
    if m == [] then [] else [Entry(m[0].key, m[0].value / 2.0)] + Halved(m[1..])
  }

  lemma {:induction false} HalvedFacts(m: Matrix)
    ensures KeySet(Halved(m)) == KeySet(m)
    ensures DistinctKeys(m) ==> DistinctKeys(Halved(m))
    ensures forall k :: ValueAt(Halved(m), k) == ValueAt(m, k) / 2.0
  {
    if m != [] {
      HalvedFacts(m[1..]);
    }
  }

  /**
   * `average_two_matrices`: both matrices outer-merged onto the grid with
   * missing demand filled with 0, then (Demand_x + Demand_y) / 2.
   */
  function AverageTwo(mx1: Matrix, mx2: Matrix, zones: nat): Matrix
  {
    Halved(OuterSum(OuterSum(Grid(zones), mx1), mx2))
  }

  lemma AverageTwoSpec(mx1: Matrix, mx2: Matrix, zones: nat)
    requires DistinctKeys(mx1) && DistinctKeys(mx2)
    ensures DistinctKeys(AverageTwo(mx1, mx2, zones))
    ensures forall k :: k in KeySet(AverageTwo(mx1, mx2, zones)) <==> InGrid(k, zones) || k in KeySet(mx1) || k in KeySet(mx2)
    ensures forall k :: ValueAt(AverageTwo(mx1, mx2, zones), k) == (ValueAt(mx1, k) + ValueAt(mx2, k)) / 2.0
  {
    var a := OuterSum(Grid(zones), mx1);
    var b := OuterSum(a, mx2);
    GridFacts(zones);
    OuterSumSpec(Grid(zones), mx1);
    OuterSumSpec(a, mx2);
    HalvedFacts(b);
    forall k: ZonePair
      ensures ValueAt(AverageTwo(mx1, mx2, zones), k) == (ValueAt(mx1, k) + ValueAt(mx2, k)) / 2.0
    {
      assert ValueAt(a, k) == ValueAt(Grid(zones), k) + ValueAt(mx1, k);
      assert ValueAt(b, k) == ValueAt(a, k) + ValueAt(mx2, k);
      assert ValueAt(Halved(b), k) == ValueAt(b, k) / 2.0;
    }
  }

  /**
   * A from-home matrix averaged with its transposed to-home counterpart: the
   * cell (i, j) is the mean of from-home (i, j) and to-home (j, i).
   */
  lemma AverageWithTransposed(fh: Matrix, th: Matrix, zones: nat, i: int, j: int)
    requires DistinctKeys(fh) && DistinctKeys(th)
    ensures ValueAt(AverageTwo(fh, Transposed(th), zones), (i, j)) == (ValueAt(fh, (i, j)) + ValueAt(th, (j, i))) / 2.0
  {
    TransposedDistinct(th);
    AverageTwoSpec(fh, Transposed(th), zones);
    TransposedValueAt(th, (i, j));
  }

  /** `sum_periods_demand`: three outer merges, missing demand filled with 0, then AM+IP+PM+OP. */
  function SumPeriods(am: Matrix, ip: Matrix, pm: Matrix, op: Matrix): Matrix
  {
    OuterSum(OuterSum(OuterSum(am, ip), pm), op)
  }

  lemma SumPeriodsSpec(am: Matrix, ip: Matrix, pm: Matrix, op: Matrix)
    requires DistinctKeys(am) && DistinctKeys(ip) && DistinctKeys(pm) && DistinctKeys(op)
    ensures DistinctKeys(SumPeriods(am, ip, pm, op))
    ensures KeySet(SumPeriods(am, ip, pm, op)) == KeySet(am) + KeySet(ip) + KeySet(pm) + KeySet(op)
    ensures forall k :: ValueAt(SumPeriods(am, ip, pm, op), k) == ValueAt(am, k) + ValueAt(ip, k) + ValueAt(pm, k) + ValueAt(op, k)
  {
    var a := OuterSum(am, ip);
    var b := OuterSum(a, pm);
    OuterSumSpec(am, ip);
    OuterSumSpec(a, pm);
    OuterSumSpec(b, op);
    forall k: ZonePair
      ensures ValueAt(SumPeriods(am, ip, pm, op), k) == ValueAt(am, k) + ValueAt(ip, k) + ValueAt(pm, k) + ValueAt(op, k)
    {
      assert ValueAt(a, k) == ValueAt(am, k) + ValueAt(ip, k);
      assert ValueAt(b, k) == ValueAt(a, k) + ValueAt(pm, k);
    }
  }

  // ----- back to the NoRMS segments -----

  /** How one NoRMS segment is produced. */
  datatype Combine = Average(name: string) | Expand(name: string)

  datatype CombineError = MissingMatrix(name: string)

  /** The segments the NoRMS model takes, in the order they are produced. */
  const NormsSegments: seq<string> := [
    "HBEBCA_Int", "HBEBNCA_Int", "NHBEBCA_Int", "NHBEBNCA_Int", "HBWCA_Int", "HBWNCA_Int",
    "HBOCA_Int", "HBONCA_Int", "NHBOCA_Int", "NHBONCA_Int", "EBCA_Ext_FM", "EBCA_Ext_TO",
    "EBNCA_Ext", "HBWCA_Ext_FM", "HBWCA_Ext_TO", "HBWNCA_Ext", "OCA_Ext_FM", "OCA_Ext_TO", "ONCA_Ext"]

  /** `fromto_2_from_by_averaging`: the home-based internal segments are averaged, the rest expanded. */
  const AveragingPlan: seq<Combine> := [
    Average("HBEBCA_Int"), Average("HBEBNCA_Int"), Expand("NHBEBCA_Int"), Expand("NHBEBNCA_Int"),
    Average("HBWCA_Int"), Average("HBWNCA_Int"), Average("HBOCA_Int"), Average("HBONCA_Int"),
    Expand("NHBOCA_Int"), Expand("NHBONCA_Int"), Expand("EBCA_Ext_FM"), Expand("EBCA_Ext_TO"),
    Expand("EBNCA_Ext"), Expand("HBWCA_Ext_FM"), Expand("HBWCA_Ext_TO"), Expand("HBWNCA_Ext"),
    Expand("OCA_Ext_FM"), Expand("OCA_Ext_TO"), Expand("ONCA_Ext")]

  /** `fromto_2_from_by_from`: every segment is expanded, keeping the from-home direction only. */
  function FromPlan(): (p: seq<Combine>)
    ensures |p| == |NormsSegments|
    ensures forall i :: 0 <= i < |p| ==> p[i] == Expand(NormsSegments[i])
  {
    seq(|NormsSegments|, i requires 0 <= i < |NormsSegments| => Expand(NormsSegments[i]))
  }

  /** The to-home counterpart of a from-home segment. */
  function ToHome(name: string): string
  {
    name + "_T"
  }

  /** One statement of the combination: the matrices it reads, KeyError on the first missing one. */
  function Step(vals: map<string, Matrix>, c: Combine, zones: nat): (r: Result<Matrix, CombineError>)
    ensures r.Failure? <==> c.name !in vals || (c.Average? && ToHome(c.name) !in vals)
  {
    match c
    case Average(n) =>
      if n !in vals then Failure(MissingMatrix(n))
      else if ToHome(n) !in vals then Failure(MissingMatrix(ToHome(n)))
      else Success(AverageTwo(vals[n], Transposed(vals[ToHome(n)]), zones))
    case Expand(n) =>
      if n !in vals then Failure(MissingMatrix(n)) else Success(ExpandMatrix(vals[n], zones))
  }

  /** The statements of a plan run in order, stopping at the first KeyError. */
  function CombineAll(vals: map<string, Matrix>, plan: seq<Combine>, zones: nat): (r: Result<map<string, Matrix>, CombineError>)
    ensures r.Success? ==> r.value.Keys == set c | c in plan :: c.name
    ensures r.Success? <==> forall c :: c in plan ==> Step(vals, c, zones).Success?
  {
    if plan == [] then Success(map[])
    else
      var init := plan[..|plan| - 1];
      var c := plan[|plan| - 1];
      assert forall x :: x in plan <==> x in init || x == c;
      match CombineAll(vals, init, zones)
      case Failure(e) => Failure(e)
      case Success(out) =>
        match Step(vals, c, zones)
        case Failure(e) => Failure(e)
        case Success(m) => Success(out[c.name := m])
  }

  /** The to-home frames a run of the plan has transposed before it stops. */
  function Transposes(vals: map<string, Matrix>, plan: seq<Combine>, zones: nat): set<string>
  {
    if plan == [] then {}
    else
      var init := plan[..|plan| - 1];
      var c := plan[|plan| - 1];
      var before := Transposes(vals, init, zones);
      if CombineAll(vals, init, zones).Success? && c.Average? && c.name in vals && ToHome(c.name) in vals
      then before + {ToHome(c.name)}
      else before
  }

  lemma {:induction false} TransposesWithin(vals: map<string, Matrix>, plan: seq<Combine>, zones: nat)
    ensures forall k :: k in Transposes(vals, plan, zones) ==> exists c :: c in plan && c.Average? && k == ToHome(c.name)
  {
    if plan != [] {
      var init := plan[..|plan| - 1];
      TransposesWithin(vals, init, zones);
      assert forall x :: x in init ==> x in plan;
    }
  }

  /** The matrices one statement reads. */
  function Reads(c: Combine): set<string>
  {
    if c.Average? then {c.name, ToHome(c.name)} else {c.name}
  }

  /** No statement reads a frame an earlier statement has transposed, and no segment is produced twice. */
  predicate ReadsOnce(plan: seq<Combine>)
  {
    forall i, j :: 0 <= i < j < |plan| ==> Reads(plan[i]) !! Reads(plan[j]) && plan[i].name != plan[j].name
  }

  /** The matrices the frames hold. */
  function Contents(frames: map<string, ZoneFrame>): map<string, Matrix>
    reads set k | k in frames :: frames[k]
  {
    map k | k in frames :: frames[k].rows
  }

  /** No two names share a frame. */
  predicate Separate(frames: map<string, ZoneFrame>)
  {
    forall a, b :: a in frames && b in frames && a != b ==> frames[a] != frames[b]
  }

  /** The frames hold `vals`, transposed for the names in `tr`. */
  predicate FramesHold(frames: map<string, ZoneFrame>, vals: map<string, Matrix>, tr: set<string>)
    reads set k | k in frames :: frames[k]
  {
    forall k :: k in frames ==> k in vals && frames[k].rows == if k in tr then Transposed(vals[k]) else vals[k]
  }

  /** `transpose_matrix(matrices_dict[key])`: the frame under `key` is transposed in place. */
  method TransposeFrame(frames: map<string, ZoneFrame>, key: string, ghost vals: map<string, Matrix>, ghost tr: set<string>) returns (t: Matrix)
    requires key in frames && key !in tr && Separate(frames) && FramesHold(frames, vals, tr)
    modifies frames[key]
    ensures t == Transposed(vals[key])
    ensures FramesHold(frames, vals, tr + {key})
  {
    t := frames[key].TransposeMatrix();
  }

  /**
   * `fromto_2_from_by_averaging` over the 24-hour frames: each statement of
   * the plan in order; an averaged segment transposes its to-home frame in
   * place before averaging.  The result is the plan run over the frames'
   * original matrices; afterwards exactly the to-home frames reached before
   * any KeyError hold their transposed matrix, every other frame is unchanged.
   */
  method CombineFrames(frames: map<string, ZoneFrame>, plan: seq<Combine>, zones: nat) returns (r: Result<map<string, Matrix>, CombineError>)
    requires Separate(frames)
    requires ReadsOnce(plan)
    modifies set k | k in frames :: frames[k]
    ensures r == CombineAll(old(Contents(frames)), plan, zones)
    ensures FramesHold(frames, old(Contents(frames)), Transposes(old(Contents(frames)), plan, zones))
  {
    ghost var vals := Contents(frames);
    assert FramesHold(frames, vals, {});
    var out: map<string, Matrix> := map[];
    var i := 0;
    assert plan[..0] == [];
    while i < |plan|
      invariant 0 <= i <= |plan|
      invariant CombineAll(vals, plan[..i], zones) == Success(out)
      invariant FramesHold(frames, vals, Transposes(vals, plan[..i], zones))
    {
      var c := plan[i];
      ghost var tr := Transposes(vals, plan[..i], zones);
      StepFacts(vals, plan, i, zones);
      ReadsUntouched(vals, plan, i, zones);
      if c.name !in frames {
        r := Failure(MissingMatrix(c.name));
        FailureStays(vals, plan, i + 1, zones);
        return;
      }
      var base := frames[c.name].rows;
      if c.Average? {
        if ToHome(c.name) !in frames {
          r := Failure(MissingMatrix(ToHome(c.name)));
          FailureStays(vals, plan, i + 1, zones);
          return;
        }
        var t := TransposeFrame(frames, ToHome(c.name), vals, tr);
        out := out[c.name := AverageTwo(base, t, zones)];
      } else {
        out := out[c.name := ExpandMatrix(base, zones)];
      }
      i := i + 1;
    }
    assert plan[..i] == plan;
    r := Success(out);
  }

  /** Running one more statement of the plan. */
  lemma StepFacts(vals: map<string, Matrix>, plan: seq<Combine>, i: int, zones: nat)
    requires 0 <= i < |plan|
    ensures var before := CombineAll(vals, plan[..i], zones);
      var s := Step(vals, plan[i], zones);
      CombineAll(vals, plan[..i + 1], zones) ==
        if before.Failure? then before
        else if s.Failure? then Failure(s.error)
        else Success(before.value[plan[i].name := s.value])
    ensures Transposes(vals, plan[..i + 1], zones) ==
      if CombineAll(vals, plan[..i], zones).Success? && plan[i].Average? && plan[i].name in vals && ToHome(plan[i].name) in vals
      then Transposes(vals, plan[..i], zones) + {ToHome(plan[i].name)}
      else Transposes(vals, plan[..i], zones)
  {
    assert plan[..i + 1][..i] == plan[..i];
    assert plan[..i + 1][i] == plan[i];
  }

  /** Before statement `i` runs, the frames it reads are untransposed. */
  lemma ReadsUntouched(vals: map<string, Matrix>, plan: seq<Combine>, i: int, zones: nat)
    requires ReadsOnce(plan) && 0 <= i < |plan|
    ensures forall k :: k in Reads(plan[i]) ==> k !in Transposes(vals, plan[..i], zones)
  {
    TransposesWithin(vals, plan[..i], zones);
    forall c | c in plan[..i] && c.Average?
      ensures ToHome(c.name) !in Reads(plan[i])
    {
      var j :| 0 <= j < i && plan[..i][j] == c;
      assert plan[j] == c && ToHome(c.name) in Reads(plan[j]);
    }
  }

  /** Once the plan has stopped at a KeyError, the rest of the plan changes nothing. */
  lemma {:induction false} FailureStays(vals: map<string, Matrix>, plan: seq<Combine>, i: int, zones: nat)
    requires 0 <= i <= |plan| && CombineAll(vals, plan[..i], zones).Failure?
    ensures CombineAll(vals, plan, zones) == CombineAll(vals, plan[..i], zones)
    ensures Transposes(vals, plan, zones) == Transposes(vals, plan[..i], zones)
    decreases |plan| - i
  {
    if i < |plan| {
      assert plan[..i + 1][..i] == plan[..i];
      FailureStays(vals, plan, i + 1, zones);
    } else {
      assert plan[..i] == plan;
    }
  }

  /** A name of the to-home form. */
  predicate IsToHome(s: string)
  {
    |s| >= 2 && s[|s| - 2..] == "_T"
  }

  lemma ToHomeFacts(a: string, b: string)
    ensures IsToHome(ToHome(a))
    ensures ToHome(a) == ToHome(b) ==> a == b
  {
    if ToHome(a) == ToHome(b) {
      assert |a| == |b|;
      assert ToHome(a)[..|a|] == a && ToHome(b)[..|b|] == b;
    }
  }

  /** Distinct names none of which has the to-home form read every frame once. */
  lemma ReadsOnceByNames(plan: seq<Combine>)
    requires forall i, j :: 0 <= i < j < |plan| ==> plan[i].name != plan[j].name
    requires forall i :: 0 <= i < |plan| ==> !IsToHome(plan[i].name)
    ensures ReadsOnce(plan)
  {
    forall i, j | 0 <= i < j < |plan|
      ensures Reads(plan[i]) !! Reads(plan[j])
    {
      ToHomeFacts(plan[i].name, plan[j].name);
      ToHomeFacts(plan[j].name, plan[i].name);
    }
  }

  lemma NormsSegmentNames()
    ensures forall i, j :: 0 <= i < j < |NormsSegments| ==> NormsSegments[i] != NormsSegments[j]
    ensures forall i :: 0 <= i < |NormsSegments| ==> !IsToHome(NormsSegments[i])
  {
  }

  /** The plans produce the NoRMS segments, in order, each once, and read every frame once. */
  lemma PlansProduceNormsSegments()
    ensures |AveragingPlan| == |NormsSegments|
    ensures forall i :: 0 <= i < |AveragingPlan| ==> AveragingPlan[i].name == NormsSegments[i]
    ensures ReadsOnce(AveragingPlan) && ReadsOnce(FromPlan())
  {
    assert forall i :: 0 <= i < |AveragingPlan| ==> AveragingPlan[i].name == NormsSegments[i];
    NormsSegmentNames();
    ReadsOnceByNames(AveragingPlan);
    ReadsOnceByNames(FromPlan());
  }

  /**
   * When every segment the plan reads is present, combining succeeds and every
   * NoRMS segment covers the whole zone grid.
   */
  lemma {:induction false} CombinedCoverGrid(vals: map<string, Matrix>, plan: seq<Combine>, zones: nat)
    requires forall c :: c in plan ==> Reads(c) <= vals.Keys
    requires forall k :: k in vals ==> DistinctKeys(vals[k])
    ensures CombineAll(vals, plan, zones).Success?
    ensures forall n :: n in CombineAll(vals, plan, zones).value ==>
      DistinctKeys(CombineAll(vals, plan, zones).value[n]) &&
      forall k :: InGrid(k, zones) ==> k in KeySet(CombineAll(vals, plan, zones).value[n])
  {
    if plan != [] {
      var init := plan[..|plan| - 1];
      var c := plan[|plan| - 1];
      assert forall x :: x in init ==> x in plan;
      CombinedCoverGrid(vals, init, zones);
      assert c in plan;
      var m := Step(vals, c, zones).value;
      if c.Average? {
        TransposedDistinct(vals[ToHome(c.name)]);
        AverageTwoSpec(vals[c.name], Transposed(vals[ToHome(c.name)]), zones);
      } else {
        ExpandMatrixSpec(vals[c.name], zones);
      }
    }
  }
}
