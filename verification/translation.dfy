/**
 * Zone translation of matrices and vectors: a square demand matrix over
 * `n_in` zones is spread onto `n_out` zones by an `n_in x n_out` table of
 * factors, first along the rows and then along the columns.
 */
module Translation {
  import opened Wrappers
  import opened RealSums

  /** A two-dimensional array, row by row. */
  type Matrix = seq<seq<real>>

  function Cols(m: Matrix): nat
  {
    if |m| == 0 then 0 else |m[0]|
  }

  /** Every row has the same length, as in a numpy array. */
  predicate IsRect(m: Matrix)
  {
    forall i :: 0 <= i < |m| ==> |m[i]| == Cols(m)
  }

  /** m[i][j], or 0 outside the array. */
  function At(m: Matrix, i: nat, j: nat): real
  {
    if i < |m| && j < |m[i]| then m[i][j] else 0.0
  }

  function Cell(m: Matrix): (nat, nat) -> real
  {
    (i: nat, j: nat) => At(m, i, j)
  }

  /** Sum of every element (`matrix.sum()`). */
  function Total(m: Matrix): real
  {
    SumF(|m|, RowTotals(Cell(m), Cols(m)))
  }

  /** Every row of the translation sums to 1: nothing is dropped or duplicated. */
  predicate RowsSumToOne(t: Matrix)
  {
    forall i: nat :: i < |t| ==> SumF(Cols(t), Row(Cell(t), i)) == 1.0
  }

  /** The terms m[i][j] * t[i][k] of one output column k, as a table over (i, j). */
  function Weighted(m: Matrix, t: Matrix, k: nat): (nat, nat) -> real
  {
    (i: nat, j: nat) => At(m, i, j) * At(t, i, k)
  }

  /**
   * One broadcast-multiply-and-sum step: result[j][k] = sum over i of
   * m[i][j] * t[i][k], summing over the translation's rows.  Applied to the
   * matrix it translates the rows (the result is transposed); applied again
   * it translates the columns.
   */
  function RowStep(m: Matrix, t: Matrix): Matrix
  {
    seq(Cols(m), j requires 0 <= j => seq(Cols(t), k requires 0 <= k => SumF(|t|, Col(Weighted(m, t, k), j))))
  }

  /** The translated matrix is square over the translation's target zones. */
  function Translate(m: Matrix, t: Matrix): (r: Matrix)
    ensures IsRect(r)
    ensures Cols(m) > 0 ==> |r| == Cols(t) && Cols(r) == Cols(t)
  {
    RowStep(RowStep(m, t), t)
  }

  /** The terms m[i][j] * t[i][a] * t[j][b] of output cell (a, b). */
  function Quad(m: Matrix, t: Matrix, a: nat, b: nat): (nat, nat) -> real
  {
    (i: nat, j: nat) => At(m, i, j) * At(t, i, a) * At(t, j, b)
  }

  /** out[a][b] = sum over i and j of m[i][j] * t[i][a] * t[j][b]. */
  function Bilinear(m: Matrix, t: Matrix, a: nat, b: nat): real
  {
    SumF(|t|, RowTotals(Quad(m, t, a, b), |t|))
  }

  lemma RowStepShape(m: Matrix, t: Matrix)
    requires IsRect(t)
    ensures |RowStep(m, t)| == Cols(m)
    ensures IsRect(RowStep(m, t))
    ensures Cols(m) > 0 ==> Cols(RowStep(m, t)) == Cols(t)
  {
  }

  /** The two broadcast steps compute the bilinear sum over both input axes. */
  lemma {:induction false} TranslateIsBilinear(m: Matrix, t: Matrix, a: nat, b: nat)
    requires IsRect(m) && IsRect(t) && |m| == Cols(m) == |t| > 0
    requires a < Cols(t) && b < Cols(t)
    ensures |Translate(m, t)| == Cols(t) && |Translate(m, t)[a]| == Cols(t)
    ensures Translate(m, t)[a][b] == Bilinear(m, t, a, b)
  {
    var n := |t|;
    var o := RowStep(m, t);
    RowStepShape(m, t);
    RowStepShape(o, t);
    var q := Quad(m, t, a, b);
    forall j: nat | j < n
      ensures Col(Weighted(o, t, b), a)(j) == ColTotals(q, n)(j)
    {
      assert At(o, j, a) == SumF(n, Col(Weighted(m, t, a), j));
      SumFScale(n, Col(Weighted(m, t, a), j), At(t, j, b), Col(q, j));
    }
    SumFCongruence(n, Col(Weighted(o, t, b), a), ColTotals(q, n));
    SumFSwap(n, n, q);
  }

  /** The terms m[i][j] * t[i][k] for a fixed input column j, as a table over (i, k). */
  function Spread(m: Matrix, t: Matrix, j: nat): (nat, nat) -> real
  {
    (i: nat, k: nat) => At(m, i, j) * At(t, i, k)
  }

  /** One translation step keeps the total when the translation's rows sum to 1. */
  lemma {:induction false} RowStepKeepsTotal(m: Matrix, t: Matrix)
    requires IsRect(m) && IsRect(t) && |m| == |t| && RowsSumToOne(t)
    ensures Total(RowStep(m, t)) == Total(m)
  {
    var n := |t|;
    var r := RowStep(m, t);
    RowStepShape(m, t);
    if Cols(m) == 0 {
      forall i: nat | i < |m|
        ensures RowTotals(Cell(m), 0)(i) == 0.0
      {
      }
      SumFZero(|m|, RowTotals(Cell(m), 0));
    } else {
      // Each output row j holds the translated input column j.
      forall j: nat | j < Cols(m)
        ensures RowTotals(Cell(r), Cols(r))(j) == ColTotals(Cell(m), n)(j)
      {
        var s := Spread(m, t, j);
        forall k: nat | k < Cols(t)
          ensures Row(Cell(r), j)(k) == ColTotals(s, n)(k)
        {
          SumFCongruence(n, Col(Weighted(m, t, k), j), Col(s, k));
        }
        SumFCongruence(Cols(t), Row(Cell(r), j), ColTotals(s, n));
        SumFSwap(n, Cols(t), s);
        forall i: nat | i < n
          ensures RowTotals(s, Cols(t))(i) == Col(Cell(m), j)(i)
        {
          SumFScale(Cols(t), Row(Cell(t), i), At(m, i, j), Row(s, i));
        }
        SumFCongruence(n, RowTotals(s, Cols(t)), Col(Cell(m), j));
      }
      SumFCongruence(Cols(m), RowTotals(Cell(r), Cols(r)), ColTotals(Cell(m), n));
      SumFSwap(n, Cols(m), Cell(m));
    }
  }

  /** Translating with factors whose rows sum to 1 keeps the matrix total. */
  lemma TranslateKeepsTotal(m: Matrix, t: Matrix)
    requires IsRect(m) && IsRect(t) && |m| == Cols(m) == |t| && RowsSumToOne(t)
    ensures Total(Translate(m, t)) == Total(m)
  {
    RowStepShape(m, t);
    RowStepKeepsTotal(m, t);
    RowStepKeepsTotal(RowStep(m, t), t);
  }

  datatype TranslationError =
    | NotSquare                  // the matrix is not square
    | TranslationRowsMismatch    // translation rows differ from matrix (or vector) rows
    | NotAVector                 // the vector input has more than one dimension
    | EmptyInput                 // numpy's max/min of an empty array
    | TotalsChanged              // the translated total differs from the input total
    | IndexColumnsDtypeMismatch  // matrix index and columns have different dtypes
    | TranslationDtypeMismatch   // matrix index dtype differs from the translation's from-zone dtype
    | DuplicateFromZones         // from_unique_zones repeats a zone
    | DuplicateToZones           // to_unique_zones repeats a zone
    | DuplicateAxisLabels        // pandas cannot reindex an axis with repeated labels

  /**
   * numpy_matrix_zone_translation.  Without shape checks the caller vouches
   * that the matrix is square and matches the translation's rows.
   */
  function MatrixZoneTranslation(matrix: Matrix, translation: Matrix, checkShapes: bool, checkTotals: bool): (r: Result<Matrix, TranslationError>)
    requires IsRect(matrix) && IsRect(translation)
    requires !checkShapes ==> Cols(matrix) == |matrix| == |translation|
    ensures r == Failure(NotSquare) <==> checkShapes && Cols(matrix) != |matrix|
    ensures r == Failure(TranslationRowsMismatch) <==> checkShapes && Cols(matrix) == |matrix| && |translation| != |matrix|
    ensures r == Failure(EmptyInput) <==> |matrix| == 0 && |translation| == 0
    ensures r == Failure(TotalsChanged) <==>
      (checkTotals && Cols(matrix) == |matrix| == |translation| > 0 && Total(Translate(matrix, translation)) != Total(matrix))
    ensures r.Success? ==> |r.value| == Cols(translation) && IsRect(r.value)
    ensures r.Success? ==> forall a: nat, b: nat :: a < Cols(translation) && b < Cols(translation) ==>
      |r.value[a]| == Cols(translation) && r.value[a][b] == Bilinear(matrix, translation, a, b)
  {
    if checkShapes && Cols(matrix) != |matrix| then Failure(NotSquare)
    else if checkShapes && |translation| != |matrix| then Failure(TranslationRowsMismatch)
    else if |matrix| == 0 then Failure(EmptyInput)
    else
      var out := Translate(matrix, translation);
      RowStepShape(matrix, translation);
      RowStepShape(RowStep(matrix, translation), translation);
      if checkTotals && Total(out) != Total(matrix) then Failure(TotalsChanged)
      else
        assert forall a: nat, b: nat :: a < Cols(translation) && b < Cols(translation) ==>
          out[a][b] == Bilinear(matrix, translation, a, b) by {
          forall a: nat, b: nat | a < Cols(translation) && b < Cols(translation) {
            TranslateIsBilinear(matrix, translation, a, b);
          }
        }
        Success(out)
  }

  /** With factors whose rows sum to 1, the totals check never fails. */
  lemma MatrixTranslationPassesTotalsCheck(matrix: Matrix, translation: Matrix, checkTotals: bool)
    requires IsRect(matrix) && IsRect(translation) && RowsSumToOne(translation)
    requires Cols(matrix) == |matrix| == |translation| > 0
    ensures MatrixZoneTranslation(matrix, translation, true, checkTotals).Success?
  {
    TranslateKeepsTotal(matrix, translation);
  }

  // ----- vectors -----

  /** A numpy array handed in as a vector: one-dimensional or not. */
  datatype NumArray = Vector(values: seq<real>) | Array2(rows: Matrix)

  function VectorAt(v: seq<real>, i: nat): real
  {
    if i < |v| then v[i] else 0.0
  }

  function VectorTotal(v: seq<real>): real
  {
    SumF(|v|, (i: nat) => VectorAt(v, i))
  }

  /** out[i][k] = v[i] * t[i][k]: the vector spread over the output zones, not summed. */
  function Spread1(v: seq<real>, t: Matrix): Matrix
  {
    seq(|t|, i requires 0 <= i => seq(Cols(t), k requires 0 <= k => VectorAt(v, i) * At(t, i, k)))
  }

  lemma {:induction false} Spread1KeepsTotal(v: seq<real>, t: Matrix)
    requires IsRect(t) && |v| == |t| && RowsSumToOne(t)
    ensures Total(Spread1(v, t)) == VectorTotal(v)
  {
    var out := Spread1(v, t);
    if |t| > 0 {
      assert Cols(out) == Cols(t);
    }
    forall i: nat | i < |t|
      ensures RowTotals(Cell(out), Cols(out))(i) == VectorAt(v, i)
    {
      SumFScale(Cols(t), Row(Cell(t), i), VectorAt(v, i), Row(Cell(out), i));
    }
    SumFCongruence(|t|, RowTotals(Cell(out), Cols(out)), (i: nat) => VectorAt(v, i));
  }

  /** numpy_vector_zone_translation; without shape checks the caller vouches for a matching vector. */
  function VectorZoneTranslation(vector: NumArray, translation: Matrix, checkShapes: bool, checkTotals: bool): (r: Result<Matrix, TranslationError>)
    requires IsRect(translation)
    requires !checkShapes ==> vector.Vector? && |vector.values| == |translation|
    ensures r == Failure(NotAVector) <==> checkShapes && vector.Array2?
    ensures r == Failure(TranslationRowsMismatch) <==> checkShapes && vector.Vector? && |vector.values| != |translation|
    ensures r == Failure(EmptyInput) <==> vector.Vector? && |vector.values| == 0 && |translation| == 0
    ensures r == Failure(TotalsChanged) <==>
      (checkTotals && vector.Vector? && |vector.values| == |translation| > 0 &&
       Total(Spread1(vector.values, translation)) != VectorTotal(vector.values))
    ensures r.Success? ==> vector.Vector? && |r.value| == |translation|
    ensures r.Success? ==> forall i, k :: 0 <= i < |translation| && 0 <= k < Cols(translation) ==>
      |r.value[i]| == Cols(translation) && r.value[i][k] == vector.values[i] * translation[i][k]
  {
    if checkShapes && vector.Array2? then Failure(NotAVector)
    else if checkShapes && |vector.values| != |translation| then Failure(TranslationRowsMismatch)
    else if |vector.values| == 0 then Failure(EmptyInput)
    else
      var out := Spread1(vector.values, translation);
      assert forall i, k :: 0 <= i < |translation| && 0 <= k < Cols(translation) ==>
        At(translation, i, k) == translation[i][k] && VectorAt(vector.values, i) == vector.values[i];
      if checkTotals && Total(out) != VectorTotal(vector.values) then Failure(TotalsChanged) else Success(out)
  }

  /** With factors whose rows sum to 1, the vector totals check never fails. */
  lemma VectorTranslationPassesTotalsCheck(v: seq<real>, translation: Matrix, checkTotals: bool)
    requires IsRect(translation) && RowsSumToOne(translation) && |v| == |translation| > 0
    ensures VectorZoneTranslation(Vector(v), translation, true, checkTotals).Success?
  {
    Spread1KeepsTotal(v, translation);
  }

  // ----- pandas wrapper -----

  /** The zones of a list, as Python's `set(...)`. */
  function ToSet(s: seq<int>): set<int>
  {
    set x | x in s
  }

  predicate Distinct(s: seq<int>)
  {
    forall i, j :: 0 <= i < j < |s| ==> s[i] != s[j]
  }

  /** A list never has fewer entries than its set, and has as many exactly when it repeats nothing. */
  lemma {:induction false} SetOfListSize(s: seq<int>)
    ensures |ToSet(s)| <= |s|
    ensures |ToSet(s)| == |s| <==> Distinct(s)
  {
    if s != [] {
      SetOfListSize(s[1..]);
      assert ToSet(s) == {s[0]} + ToSet(s[1..]);
      if s[0] in s[1..] {
        assert ToSet(s) == ToSet(s[1..]);
        var k :| 0 <= k < |s[1..]| && s[1..][k] == s[0];
        assert s[0] == s[k + 1];
      } else {
        assert |ToSet(s)| == 1 + |ToSet(s[1..])|;
        if Distinct(s[1..]) {
          forall i, j | 0 <= i < j < |s|
            ensures s[i] != s[j]
          {
            if i > 0 {
              assert s[i] == s[1..][i - 1] && s[j] == s[1..][j - 1];
            } else {
              assert s[j] == s[1..][j - 1];
            }
          }
        }
        if Distinct(s) {
          forall i, j | 0 <= i < j < |s[1..]|
            ensures s[1..][i] != s[1..][j]
          {
            assert s[1..][i] == s[i + 1] && s[1..][j] == s[j + 1];
          }
        }
      }
    }
  }

  /** The duplicate-zone guard as written: `len(zones) < len(set(zones))`. */
  predicate AsWrittenDuplicateGuard(zones: seq<int>)
  {
    |zones| < |ToSet(zones)|
  }

  /** The guard as written can never fire, so a repeated zone goes through unnoticed. */
  lemma AsWrittenDuplicateGuardNeverFires(zones: seq<int>)
    ensures !AsWrittenDuplicateGuard(zones)
    ensures zones == [1, 1] ==> !Distinct(zones)
  {
    SetOfListSize(zones);
    if zones == [1, 1] {
      assert zones[0] == zones[1];
    }
  }

  /** The guard as intended: `len(set(zones)) < len(zones)`. */
  predicate HasDuplicates(zones: seq<int>)
  {
    |ToSet(zones)| < |zones|
  }

  /** The intended guard fires exactly when some zone is listed twice. */
  lemma HasDuplicatesIff(zones: seq<int>)
    ensures HasDuplicates(zones) <==> exists i, j :: 0 <= i < j < |zones| && zones[i] == zones[j]
  {
    SetOfListSize(zones);
  }

  /** A matrix DataFrame labelled with zone ids on both axes, with the dtypes of its labels. */
  datatype LabelledMatrix = LabelledMatrix(index: seq<int>, columns: seq<int>, indexDtype: string, columnsDtype: string, values: Matrix)

  /** The values hold one row per index label and one column per column label. */
  predicate WellShaped(m: LabelledMatrix)
  {
    |m.values| == |m.index| && forall i :: 0 <= i < |m.values| ==> |m.values[i]| == |m.columns|
  }

  /** A long translation table: the factor for each (from zone, to zone) pair it lists. */
  datatype LongTranslation = LongTranslation(fromDtype: string, factors: map<(int, int), real>)

  /** The zones that appear in the from-zone column of the translation. */
  function FromZonesOf(t: LongTranslation): set<int>
  {
    set p | p in t.factors :: p.0
  }

  /** Warnings raised (not errors); each carries the number of zones concerned. */
  datatype TranslationWarning = MissingRows(count: nat) | MissingCols(count: nat) | MissingZones(count: nat)

  datatype Translated = Translated(warnings: seq<TranslationWarning>, index: seq<int>, columns: seq<int>, values: Matrix)

  function IndexOf(s: seq<int>, x: int): (i: nat)
    requires x in s
    ensures i < |s| && s[i] == x && x !in s[..i]
  {
    if s[0] == x then 0 else IndexOf(s[1..], x) + 1
  }

  /** `matrix.reindex(index=zones, columns=zones, fill_value=infill)`. */
  function Reindex(m: LabelledMatrix, zones: seq<int>, infill: real): Matrix
  {
    seq(|zones|, i requires 0 <= i < |zones| => seq(|zones|, j requires 0 <= j < |zones| =>
      if zones[i] in m.index && zones[j] in m.columns
      then At(m.values, IndexOf(m.index, zones[i]), IndexOf(m.columns, zones[j]))
      else infill))
  }

  /** The reindexed matrix holds the cell labelled (zones[i], zones[j]) where there is one, and the infill elsewhere. */
  lemma ReindexCells(m: LabelledMatrix, zones: seq<int>, infill: real, i: nat, j: nat)
    requires WellShaped(m) && Distinct(m.index) && Distinct(m.columns)
    requires i < |zones| && j < |zones|
    ensures |Reindex(m, zones, infill)| == |zones| && |Reindex(m, zones, infill)[i]| == |zones|
    ensures forall p, q :: 0 <= p < |m.index| && 0 <= q < |m.columns| && m.index[p] == zones[i] && m.columns[q] == zones[j] ==>
      Reindex(m, zones, infill)[i][j] == m.values[p][q]
    ensures zones[i] !in m.index || zones[j] !in m.columns ==> Reindex(m, zones, infill)[i][j] == infill
  {
  }

  /** `long_to_wide_infill`: the factor for each (from zone, to zone) pair, or the infill where none is listed. */
  function Squared(t: LongTranslation, fromZones: seq<int>, toZones: seq<int>, infill: real): Matrix
  {
    seq(|fromZones|, i requires 0 <= i < |fromZones| => seq(|toZones|, k requires 0 <= k < |toZones| =>
      if (fromZones[i], toZones[k]) in t.factors then t.factors[(fromZones[i], toZones[k])] else infill))
  }

  /** Some zone of `a` is missing from `b` exactly when the difference of their zone sets is non-empty. */
  lemma MissingFromSeq(a: seq<int>, b: seq<int>)
    ensures (exists z :: z in a && z !in b) <==> |ToSet(a) - ToSet(b)| > 0
  {
    if exists z :: z in a && z !in b {
      var z :| z in a && z !in b;
      assert z in ToSet(a) - ToSet(b);
    }
    if |ToSet(a) - ToSet(b)| > 0 {
      var z :| z in ToSet(a) - ToSet(b);
    }
  }

  /** Some zone of `a` is missing from the set `b` exactly when the difference is non-empty. */
  lemma MissingFromSet(a: seq<int>, b: set<int>)
    ensures (exists z :: z in a && z !in b) <==> |ToSet(a) - b| > 0
  {
    if exists z :: z in a && z !in b {
      var z :| z in a && z !in b;
      assert z in ToSet(a) - b;
    }
    if |ToSet(a) - b| > 0 {
      var z :| z in ToSet(a) - b;
    }
  }

  /** One warning per non-empty group of missing zones, rows first, then columns, then translation zones. */
  function WarningList(rows: nat, cols: nat, zones: nat): (w: seq<TranslationWarning>)
    ensures (exists x :: x in w && x.MissingRows?) <==> rows > 0
    ensures (exists x :: x in w && x.MissingCols?) <==> cols > 0
    ensures (exists x :: x in w && x.MissingZones?) <==> zones > 0
  {
    var w := (if rows > 0 then [MissingRows(rows)] else [])
      + (if cols > 0 then [MissingCols(cols)] else [])
      + (if zones > 0 then [MissingZones(zones)] else []);
    assert rows > 0 ==> MissingRows(rows) in w;
    assert cols > 0 ==> MissingCols(cols) in w;
    assert zones > 0 ==> MissingZones(zones) in w;
    assert forall x :: x in w ==> (x.MissingRows? && rows > 0) || (x.MissingCols? && cols > 0) || (x.MissingZones? && zones > 0);
    w
  }

  function ZoneWarnings(m: LabelledMatrix, t: LongTranslation, fromZones: seq<int>): (w: seq<TranslationWarning>)
    ensures (exists x :: x in w && x.MissingRows?) <==> exists z :: z in m.index && z !in fromZones
    ensures (exists x :: x in w && x.MissingCols?) <==> exists z :: z in m.columns && z !in fromZones
    ensures (exists x :: x in w && x.MissingZones?) <==> exists z :: z in fromZones && z !in FromZonesOf(t)
  {
    var rows := ToSet(m.index) - ToSet(fromZones);
    var cols := ToSet(m.columns) - ToSet(fromZones);
    var zones := ToSet(fromZones) - FromZonesOf(t);
    MissingFromSeq(m.index, fromZones);
    MissingFromSeq(m.columns, fromZones);
    MissingFromSet(fromZones, FromZonesOf(t));
    WarningList(|rows|, |cols|, |zones|)
  }

  /** The translation proper, once the zone lists and the matrix labels are known to be unique. */
  function TranslateLabelled(
    matrix: LabelledMatrix, translation: LongTranslation, fromZones: seq<int>, toZones: seq<int>,
    matrixInfill: real, translateInfill: real, checkTotals: bool): (r: Result<Translated, TranslationError>)
    requires WellShaped(matrix)
    ensures r == Failure(EmptyInput) <==> fromZones == []
    ensures r.Success? ==> r.value.index == toZones && r.value.columns == toZones && |r.value.values| == |toZones|
    ensures r.Success? ==> forall a: nat, b: nat :: a < |toZones| && b < |toZones| ==>
      |r.value.values[a]| == |toZones| &&
      r.value.values[a][b] == Bilinear(Reindex(matrix, fromZones, matrixInfill), Squared(translation, fromZones, toZones, translateInfill), a, b)
    ensures r.Success? ==> ((exists x :: x in r.value.warnings && x.MissingRows?) <==> exists z :: z in matrix.index && z !in fromZones)
    ensures r.Success? ==> ((exists x :: x in r.value.warnings && x.MissingCols?) <==> exists z :: z in matrix.columns && z !in fromZones)
    ensures r.Success? ==>
      ((exists x :: x in r.value.warnings && x.MissingZones?) <==> exists z :: z in fromZones && z !in FromZonesOf(translation))
  {
    var warnings := ZoneWarnings(matrix, translation, fromZones);
    var sq := Squared(translation, fromZones, toZones, translateInfill);
    var re := Reindex(matrix, fromZones, matrixInfill);
    assert |toZones| > 0 && |fromZones| > 0 ==> Cols(sq) == |toZones|;
    match MatrixZoneTranslation(re, sq, true, checkTotals)
    case Failure(e) => Failure(e)
    case Success(out) => Success(Translated(warnings, toZones, toZones, out))
  }

  /**
   * pandas_matrix_zone_translation: checks the label dtypes, warns about
   * missing zones, squares the translation, reindexes the matrix onto the
   * from zones and translates it, labelling the result with the to zones.
   * The duplicate-zone guards as written never fire, so repeated from or to
   * zones go on to the translation; only the reindex rejects repeated labels
   * on the matrix's own axes.
   */
  function PandasMatrixZoneTranslation(
    matrix: LabelledMatrix, translation: LongTranslation, fromZones: seq<int>, toZones: seq<int>,
    matrixInfill: real, translateInfill: real, checkTotals: bool): (r: Result<Translated, TranslationError>)
    requires WellShaped(matrix)
    ensures r == Failure(IndexColumnsDtypeMismatch) <==> matrix.columnsDtype != matrix.indexDtype
    ensures r == Failure(TranslationDtypeMismatch) <==>
      (matrix.columnsDtype == matrix.indexDtype && matrix.indexDtype != translation.fromDtype)
    ensures r != Failure(DuplicateFromZones) && r != Failure(DuplicateToZones)
    ensures r == Failure(DuplicateAxisLabels) <==>
      (matrix.columnsDtype == matrix.indexDtype == translation.fromDtype && !(Distinct(matrix.index) && Distinct(matrix.columns)))
    ensures matrix.columnsDtype == matrix.indexDtype == translation.fromDtype && Distinct(matrix.index) && Distinct(matrix.columns) ==>
      r == TranslateLabelled(matrix, translation, fromZones, toZones, matrixInfill, translateInfill, checkTotals)
  {
    AsWrittenDuplicateGuardNeverFires(fromZones);
    AsWrittenDuplicateGuardNeverFires(toZones);
    if matrix.columnsDtype != matrix.indexDtype then Failure(IndexColumnsDtypeMismatch)
    else if matrix.indexDtype != translation.fromDtype then Failure(TranslationDtypeMismatch)
    else if AsWrittenDuplicateGuard(fromZones) then Failure(DuplicateFromZones)
    else if AsWrittenDuplicateGuard(toZones) then Failure(DuplicateToZones)
    else if !Distinct(matrix.index) || !Distinct(matrix.columns) then Failure(DuplicateAxisLabels)
    else TranslateLabelled(matrix, translation, fromZones, toZones, matrixInfill, translateInfill, checkTotals)
  }

  /**
   * The translation with the duplicate-zone guards as intended: after the
   * dtype checks, a repeated from zone or to zone is a ValueError; otherwise
   * it behaves as written.
   */
  function GuardedPandasMatrixZoneTranslation(
    matrix: LabelledMatrix, translation: LongTranslation, fromZones: seq<int>, toZones: seq<int>,
    matrixInfill: real, translateInfill: real, checkTotals: bool): (r: Result<Translated, TranslationError>)
    requires WellShaped(matrix)
    ensures r == Failure(DuplicateFromZones) <==>
      (matrix.columnsDtype == matrix.indexDtype == translation.fromDtype && !Distinct(fromZones))
    ensures r == Failure(DuplicateToZones) <==>
      (matrix.columnsDtype == matrix.indexDtype == translation.fromDtype && Distinct(fromZones) && !Distinct(toZones))
    ensures r.Success? ==> Distinct(fromZones) && Distinct(toZones)
    ensures r != Failure(DuplicateFromZones) && r != Failure(DuplicateToZones) ==>
      r == PandasMatrixZoneTranslation(matrix, translation, fromZones, toZones, matrixInfill, translateInfill, checkTotals)
  {
    SetOfListSize(fromZones);
    SetOfListSize(toZones);
    var dtypesAgree := matrix.columnsDtype == matrix.indexDtype == translation.fromDtype;
    if dtypesAgree && HasDuplicates(fromZones) then Failure(DuplicateFromZones)
    else if dtypesAgree && HasDuplicates(toZones) then Failure(DuplicateToZones)
    else PandasMatrixZoneTranslation(matrix, translation, fromZones, toZones, matrixInfill, translateInfill, checkTotals)
  }
}
