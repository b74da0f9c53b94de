/**
 * Elasticity inputs: the filter chain over the elasticity table and the
 * selection of constraint-matrix CSV files in a folder.
 */
module Elasticity {
  import opened Wrappers
  import opened FileOps

  // ----- read_elasticity_file -----

  /** The columns read_elasticity_file can filter on. */
  datatype Column = ElasticityType | Purp | MarketShare

  /** One row of the elasticity table; a missing cell is `None`. */
  datatype ElasticityRow = ElasticityRow(
    elasticityType: Option<string>,
    purp: Option<string>,
    marketShare: Option<string>,
    affectedMode: Option<string>,
    modeCostChg: Option<string>,
    ownElast: Option<real>,
    cstrMatrixName: Option<string>)

  function CellOf(row: ElasticityRow, col: Column): Option<string>
  {
    match col
    case ElasticityType => row.elasticityType
    case Purp => row.purp
    case MarketShare => row.marketShare
  }

  /** One requested filter: a column and the value it must hold, or `None` for no filtering. */
  datatype Filter = Filter(col: Column, val: Option<string>)

  /** The filters in the order they are applied. */
  function Filters(elasticityType: Option<string>, purpose: Option<string>, marketShare: Option<string>): seq<Filter>
  {
    [Filter(ElasticityType, elasticityType), Filter(Purp, purpose), Filter(MarketShare, marketShare)]
  }

  /** `df.loc[df[col] == val]`: a missing cell never equals the value. */
  function KeepWhere(rows: seq<ElasticityRow>, col: Column, val: string): (r: seq<ElasticityRow>)
    ensures |r| <= |rows|
    ensures forall x :: x in r <==> x in rows && CellOf(x, col) == Some(val)
  {
    if rows == [] then []
    else (if CellOf(rows[0], col) == Some(val) then [rows[0]] else []) + KeepWhere(rows[1..], col, val)
  }

  /** A row passes a filter that is off, or holds the filter's value. */
  predicate Passes(row: ElasticityRow, f: Filter)
  {
    f.val.None? || CellOf(row, f.col) == f.val
  }

  predicate PassesEach(row: ElasticityRow, fs: seq<Filter>)
  {
    forall i :: 0 <= i < |fs| ==> Passes(row, fs[i])
  }

  /** The input rows that pass every filter, in input order. */
  function RowsWhere(rows: seq<ElasticityRow>, fs: seq<Filter>): (r: seq<ElasticityRow>)
    ensures forall x :: x in r <==> x in rows && PassesEach(x, fs)
  {
    if rows == [] then []
    else (if PassesEach(rows[0], fs) then [rows[0]] else []) + RowsWhere(rows[1..], fs)
  }

  predicate AnyActive(fs: seq<Filter>)
  {
    exists i :: 0 <= i < |fs| && fs[i].val.Some?
  }

  datatype ElasticityError = ValueNotFound(value: string, column: Column)

  /** The filter chain: skip an off filter, narrow by an active one, fail as soon as nothing is left. */
  function FilterChain(rows: seq<ElasticityRow>, fs: seq<Filter>): Result<seq<ElasticityRow>, ElasticityError>
    decreases |fs|
  {
    if fs == [] then Success(rows)
    else if fs[0].val.None? then FilterChain(rows, fs[1..])
    else
      var kept := KeepWhere(rows, fs[0].col, fs[0].val.value);
      if kept == [] then Failure(ValueNotFound(fs[0].val.value, fs[0].col)) else FilterChain(kept, fs[1..])
  }

  lemma PassesFirstAndRest(row: ElasticityRow, f: Filter, rest: seq<Filter>)
    ensures PassesEach(row, [f] + rest) <==> Passes(row, f) && PassesEach(row, rest)
  {
    if Passes(row, f) && PassesEach(row, rest) {
      forall i | 0 <= i < |[f] + rest|
        ensures Passes(row, ([f] + rest)[i])
      {
        if i > 0 {
          assert ([f] + rest)[i] == rest[i - 1];
        }
      }
    }
    if PassesEach(row, [f] + rest) {
      assert ([f] + rest)[0] == f;
      forall i | 0 <= i < |rest|
        ensures Passes(row, rest[i])
      {
        assert ([f] + rest)[i + 1] == rest[i];
      }
    }
  }

  /** Narrowing by one filter first and by the others afterwards selects the rows that pass them all. */
  lemma {:induction false} NarrowThenRest(rows: seq<ElasticityRow>, f: Filter, rest: seq<Filter>)
    requires f.val.Some?
    ensures RowsWhere(KeepWhere(rows, f.col, f.val.value), rest) == RowsWhere(rows, [f] + rest)
  {
    if rows != [] {
      NarrowThenRest(rows[1..], f, rest);
      PassesFirstAndRest(rows[0], f, rest);
      var k := if CellOf(rows[0], f.col) == Some(f.val.value) then [rows[0]] else [];
      assert KeepWhere(rows, f.col, f.val.value) == k + KeepWhere(rows[1..], f.col, f.val.value);
      RowsWhereConcat(k, KeepWhere(rows[1..], f.col, f.val.value), rest);
    }
  }

  lemma RowsWhereConcat(a: seq<ElasticityRow>, b: seq<ElasticityRow>, fs: seq<Filter>)
    requires |a| <= 1
    ensures RowsWhere(a + b, fs) == RowsWhere(a, fs) + RowsWhere(b, fs)
  {
    if a == [] {
      assert a + b == b;
    } else {
      assert (a + b)[0] == a[0] && (a + b)[1..] == b;
      assert a[1..] == [];
      var h := if PassesEach(a[0], fs) then [a[0]] else [];
      assert RowsWhere(a + b, fs) == h + RowsWhere(b, fs);
      assert RowsWhere([], fs) == [];
      assert RowsWhere(a, fs) == h + RowsWhere(a[1..], fs);
      assert RowsWhere(a, fs) == h;
    }
  }

  /** An off filter selects nothing away. */
  lemma {:induction false} OffFilter(rows: seq<ElasticityRow>, f: Filter, rest: seq<Filter>)
    requires f.val.None?
    ensures RowsWhere(rows, rest) == RowsWhere(rows, [f] + rest)
  {
    if rows != [] {
      OffFilter(rows[1..], f, rest);
      PassesFirstAndRest(rows[0], f, rest);
    }
  }

  /**
   * The chain succeeds unless some filter is active and no row passes them
   * all; it then returns exactly the rows that pass every filter, in input
   * order; a failure names an active filter's value and column.
   */
  lemma {:induction false} FilterChainSpec(rows: seq<ElasticityRow>, fs: seq<Filter>)
    ensures FilterChain(rows, fs).Success? <==> !(AnyActive(fs) && RowsWhere(rows, fs) == [])
    ensures FilterChain(rows, fs).Success? ==> FilterChain(rows, fs).value == RowsWhere(rows, fs)
    ensures FilterChain(rows, fs).Failure? ==>
      Filter(FilterChain(rows, fs).error.column, Some(FilterChain(rows, fs).error.value)) in fs
    decreases |fs|
  {
    if fs == [] {
      assert RowsWhere(rows, []) == rows by {
        RowsWhereAll(rows, []);
      }
    } else {
      var f, rest := fs[0], fs[1..];
      assert fs == [f] + rest;
      assert AnyActive(fs) <==> f.val.Some? || AnyActive(rest) by {
        if AnyActive(fs) {
          var i :| 0 <= i < |fs| && fs[i].val.Some?;
          if i > 0 {
            assert rest[i - 1] == fs[i];
          }
        }
        if AnyActive(rest) {
          var i :| 0 <= i < |rest| && rest[i].val.Some?;
          assert fs[i + 1] == rest[i];
        }
      }
      if f.val.None? {
        FilterChainSpec(rows, rest);
        OffFilter(rows, f, rest);
      } else {
        var kept := KeepWhere(rows, f.col, f.val.value);
        NarrowThenRest(rows, f, rest);
        if kept == [] {
          assert RowsWhere(kept, rest) == [];
        } else {
          FilterChainSpec(kept, rest);
          if !AnyActive(rest) {
            RowsWhereAll(kept, rest);
          }
        }
      }
    }
  }

  /** With no active filter every row passes. */
  lemma {:induction false} RowsWhereAll(rows: seq<ElasticityRow>, fs: seq<Filter>)
    requires !AnyActive(fs)
    ensures RowsWhere(rows, fs) == rows
  {
    if rows != [] {
      RowsWhereAll(rows[1..], fs);
      assert PassesEach(rows[0], fs);
    }
  }

  /** read_elasticity_file on a table already read: the filter loop over the three columns. */
  method ReadElasticityFile(data: seq<ElasticityRow>, elasticityType: Option<string>, purpose: Option<string>, marketShare: Option<string>)
    returns (r: Result<seq<ElasticityRow>, ElasticityError>)
    ensures r == FilterChain(data, Filters(elasticityType, purpose, marketShare))
  {
    var fs := Filters(elasticityType, purpose, marketShare);
    var df := data;
    var i := 0;
    while i < |fs|
      invariant 0 <= i <= |fs|
      invariant FilterChain(data, fs) == FilterChain(df, fs[i..])
    {
      assert fs[i..][1..] == fs[i + 1..];
      var f := fs[i];
      if f.val.None? {
        i := i + 1;
        continue;
      }
      df := KeepWhere(df, f.col, f.val.value);
      if df == [] {
        return Failure(ValueNotFound(f.val.value, f.col));
      }
      i := i + 1;
    }
    assert fs[i..] == [];
    return Success(df);
  }

  // ----- get_constraint_matrices -----

  /** A selected constraint matrix: its absolute path, or the array read from the file (represented by that file). */
  datatype Constraint = AbsolutePath(path: Path) | Loaded(file: Path)

  datatype FolderError = NotAFolder(folder: Path)

  /** `path.absolute()`: a relative path is taken from the working directory. */
  function Absolute(p: Path, cwd: Path): Path
  {
    if p.absolute then p else Path(true, cwd.parts + p.parts)
  }

  /** The file is a CSV by its suffix, in any case. */
  predicate IsCsvFile(p: Path)
  {
    Lower(Suffix(Name(p))) == ".csv"
  }

  /** The key of a file: its stem in lower case. */
  function MatrixKey(p: Path): string
  {
    Lower(Stem(Name(p)))
  }

  /** The CSV files that are selected: all of them, or those whose key is in the requested list. */
  predicate Selected(p: Path, wanted: Option<seq<string>>)
  {
    IsCsvFile(p) && (wanted.None? || MatrixKey(p) in wanted.value)
  }

  function MakeEntry(p: Path, wanted: Option<seq<string>>, cwd: Path): Constraint
  {
    if wanted.None? then AbsolutePath(Absolute(p, cwd)) else Loaded(p)
  }

  function LowerAll(names: seq<string>): (r: seq<string>)
    ensures |r| == |names| && forall i :: 0 <= i < |names| ==> r[i] == Lower(names[i])
  {
    seq(|names|, i requires 0 <= i < |names| => Lower(names[i]))
  }

  /**
   * The dictionary a loop builds from a listing: each selected item stored
   * under its key, a later item replacing an earlier one with the same key.
   */
  function Collected<P>(items: seq<P>, sel: P -> bool, key: P -> string, make: P -> Constraint): map<string, Constraint>
  {
    if items == [] then map[]
    else
      var m := Collected(items[..|items| - 1], sel, key, make);
      var p := items[|items| - 1];
      if sel(p) then m[key(p) := make(p)] else m
  }

  /** Every selected item gives a key, and only those. */
  lemma {:induction false} CollectedKeys<P>(items: seq<P>, sel: P -> bool, key: P -> string, make: P -> Constraint, k: string)
    ensures k in Collected(items, sel, key, make) <==> exists i :: 0 <= i < |items| && sel(items[i]) && key(items[i]) == k
  {
    if items != [] {
      var n := |items| - 1;
      var init := items[..n];
      CollectedKeys(init, sel, key, make, k);
      if exists i :: 0 <= i < |init| && sel(init[i]) && key(init[i]) == k {
        var i :| 0 <= i < |init| && sel(init[i]) && key(init[i]) == k;
        assert items[i] == init[i];
      }
      if exists i :: 0 <= i < |items| && sel(items[i]) && key(items[i]) == k {
        var i :| 0 <= i < |items| && sel(items[i]) && key(items[i]) == k;
        if i < n {
          assert init[i] == items[i];
        }
      }
    }
  }

  /** Each key holds what the last selected item with that key makes. */
  lemma {:induction false} CollectedLastWins<P>(items: seq<P>, sel: P -> bool, key: P -> string, make: P -> Constraint, k: string)
    requires k in Collected(items, sel, key, make)
    ensures exists i :: (0 <= i < |items| && sel(items[i]) && key(items[i]) == k &&
      Collected(items, sel, key, make)[k] == make(items[i]) &&
      forall j :: i < j < |items| && sel(items[j]) ==> key(items[j]) != k)
  {
    var n := |items| - 1;
    var init := items[..n];
    var p := items[n];
    if sel(p) && key(p) == k {
      assert Collected(items, sel, key, make)[k] == make(p);
    } else {
      assert k in Collected(init, sel, key, make);
      CollectedLastWins(init, sel, key, make, k);
      var i :| 0 <= i < |init| && sel(init[i]) && key(init[i]) == k &&
        Collected(init, sel, key, make)[k] == make(init[i]) &&
        forall j :: i < j < |init| && sel(init[j]) ==> key(init[j]) != k;
      assert items[i] == init[i];
      forall j | i < j < |items| && sel(items[j])
        ensures key(items[j]) != k
      {
        if j < n {
          assert init[j] == items[j];
        }
      }
    }
  }

  function SelectFn(wanted: Option<seq<string>>): Path -> bool
  {
    p => Selected(p, wanted)
  }

  function KeyFn(): Path -> string
  {
    p => MatrixKey(p)
  }

  function MakeFn(getFiles: Option<seq<string>>, cwd: Path): Path -> Constraint
  {
    p => MakeEntry(p, getFiles, cwd)
  }

  /** The constraint matrices of a folder listing: the selected CSV files keyed by lower-cased stem, the last file winning. */
  function ConstraintMatrices(entries: seq<Path>, getFiles: Option<seq<string>>, cwd: Path): map<string, Constraint>
  {
    Collected(entries, SelectFn(LowerOpt(getFiles)), KeyFn(), MakeFn(getFiles, cwd))
  }

  /**
   * A key is present exactly when some listed file is a CSV (by suffix, in
   * any case) whose lower-cased stem it is and, with get_files, that stem is
   * requested; it then holds the absolute path of (without get_files) or the
   * matrix read from (with get_files) the last such file.
   */
  lemma ConstraintMatricesSpec(entries: seq<Path>, getFiles: Option<seq<string>>, cwd: Path, k: string)
    ensures k in ConstraintMatrices(entries, getFiles, cwd) <==>
      exists i :: 0 <= i < |entries| && IsCsvFile(entries[i]) && MatrixKey(entries[i]) == k &&
        (getFiles.None? || k in LowerAll(getFiles.value))
    ensures k in ConstraintMatrices(entries, getFiles, cwd) ==>
      exists i :: (0 <= i < |entries| && IsCsvFile(entries[i]) && MatrixKey(entries[i]) == k &&
        ConstraintMatrices(entries, getFiles, cwd)[k] ==
          (if getFiles.None? then AbsolutePath(Absolute(entries[i], cwd)) else Loaded(entries[i])) &&
        forall j :: i < j < |entries| && IsCsvFile(entries[j]) ==> MatrixKey(entries[j]) != k)
  {
    var sel, key, make := SelectFn(LowerOpt(getFiles)), KeyFn(), MakeFn(getFiles, cwd);
    CollectedKeys(entries, sel, key, make, k);
    if k in ConstraintMatrices(entries, getFiles, cwd) {
      CollectedLastWins(entries, sel, key, make, k);
      var i :| 0 <= i < |entries| && sel(entries[i]) && key(entries[i]) == k &&
        Collected(entries, sel, key, make)[k] == make(entries[i]) &&
        forall j :: i < j < |entries| && sel(entries[j]) ==> key(entries[j]) != k;
      forall j | i < j < |entries| && IsCsvFile(entries[j])
        ensures MatrixKey(entries[j]) != k
      {
        assert sel(entries[j]) || MatrixKey(entries[j]) != k;
      }
    }
  }

  /**
   * get_constraint_matrices, given whether the folder is a directory, its
   * entries in the order the directory lists them, and the working directory.
   */
  method GetConstraintMatrices(folder: Path, isDir: bool, entries: seq<Path>, getFiles: Option<seq<string>>, cwd: Path)
    returns (r: Result<map<string, Constraint>, FolderError>)
    ensures !isDir ==> r == Failure(NotAFolder(folder))
    ensures isDir ==> r == Success(ConstraintMatrices(entries, getFiles, cwd))
  {
    if !isDir {
      return Failure(NotAFolder(folder));
    }
    var wanted := LowerOpt(getFiles);
    var matrices: map<string, Constraint> := map[];
    var i := 0;
    while i < |entries|
      invariant 0 <= i <= |entries|
      invariant matrices == Collected(entries[..i], SelectFn(wanted), KeyFn(), MakeFn(getFiles, cwd))
    {
      var path := entries[i];
      assert entries[..i + 1][..i] == entries[..i] && entries[..i + 1][i] == path;
      if Lower(Suffix(Name(path))) == ".csv" {
        var nm := Lower(Stem(Name(path)));
        if getFiles.None? {
          matrices := matrices[nm := AbsolutePath(Absolute(path, cwd))];
        } else if nm in wanted.value {
          matrices := matrices[nm := Loaded(path)];
        }
      }
      i := i + 1;
    }
    assert entries[..i] == entries;
    return Success(matrices);
  }

  /** The requested names in lower case. */
  function LowerOpt(getFiles: Option<seq<string>>): Option<seq<string>>
  {
    match getFiles
    case None => None
    case Some(names) => Some(LowerAll(names))
  }
}
