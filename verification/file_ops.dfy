/**
 * Path-string helpers: suffix stripping and adding, filename matching and
 * the ordered search for a file under an alternative extension.  Paths
 * follow POSIX `pathlib` (Python 3.8 to 3.11): a path is an optional root
 * and a list of non-empty parts, and the filesystem is an abstract set of
 * existing paths.
 */
module FileOps {
  import opened Wrappers

  // ----- names -----

  /** Index of the last '.' in `s`, or -1 (`str.rfind('.')`). */
  function LastDot(s: string): (r: int)
    ensures -1 <= r < |s|
    ensures r >= 0 ==> s[r] == '.'
    ensures forall k :: r < k < |s| ==> s[k] != '.'
  {
    if s == [] then -1
    else if s[|s| - 1] == '.' then |s| - 1
    else LastDot(s[..|s| - 1])
  }

  /** `PurePath.suffix` of a final name: from the last dot, unless that dot starts or ends the name. */
  function Suffix(name: string): string
  {
    var i := LastDot(name);
    if 0 < i < |name| - 1 then name[i..] else ""
  }

  /** `PurePath.stem` of a final name: the name without its suffix. */
  function Stem(name: string): string
  {
    var i := LastDot(name);
    if 0 < i < |name| - 1 then name[..i] else name
  }

  /** A name splits into its stem and its suffix; a suffix is a dot and at least one more character, none of them a dot. */
  lemma StemAndSuffix(name: string)
    ensures Stem(name) + Suffix(name) == name
    ensures Suffix(name) != "" ==> |Suffix(name)| >= 2 && Suffix(name)[0] == '.' && '.' !in Suffix(name)[1..]
    ensures Suffix(name) != "" ==> |Stem(name)| < |name| && Stem(name) != ""
    ensures Suffix(name) == "" ==> Stem(name) == name
  {
    var i := LastDot(name);
    if 0 < i < |name| - 1 {
      assert name[..i] + name[i..] == name;
      forall k | 0 <= k < |name[i..][1..]|
        ensures name[i..][1..][k] != '.'
      {
        assert name[i..][1..][k] == name[i + 1 + k];
      }
    }
  }

  /** A part of a path: non-empty, not ".", without a separator. */
  predicate ValidPart(s: string)
  {
    s != "" && s != "." && '/' !in s
  }

  /** `pathlib.Path(name)` keeps only a proper name: "" and "." both become the empty path. */
  function NormName(s: string): string
  {
    if s == "." then "" else s
  }

  // ----- paths -----

  datatype Path = Path(absolute: bool, parts: seq<string>)

  predicate ValidPath(p: Path)
  {
    forall i :: 0 <= i < |p.parts| ==> ValidPart(p.parts[i])
  }

  /** `PurePath.name`: the final part, or "" for the root or the empty path. */
  function Name(p: Path): string
  {
    if p.parts == [] then "" else p.parts[|p.parts| - 1]
  }

  /** `PurePath.parent`: the root and the empty path are their own parent. */
  function Parent(p: Path): Path
  {
    if p.parts == [] then p else Path(p.absolute, p.parts[..|p.parts| - 1])
  }

  /** The separator-delimited pieces of a string, empty ones included (`str.split('/')`). */
  function SplitSlash(s: string): (r: seq<string>)
    ensures |r| >= 1
  {
    if s == [] then [""]
    else
      var rest := SplitSlash(s[1..]);
      if s[0] == '/' then [""] + rest else [[s[0]] + rest[0]] + rest[1..]
  }

  /** pathlib drops empty pieces and "." pieces. */
  function KeepParts(ps: seq<string>): seq<string>
  {
    if ps == [] then []
    else (if ps[0] != "" && ps[0] != "." then [ps[0]] else []) + KeepParts(ps[1..])
  }

  /** `path / s`: an absolute `s` replaces the path, a relative one extends it. */
  function Join(p: Path, s: string): Path
  {
    var ps := KeepParts(SplitSlash(s));
    if |s| > 0 && s[0] == '/' then Path(true, ps) else Path(p.absolute, p.parts + ps)
  }

  lemma {:induction false} SplitSlashNoSeparator(s: string)
    requires '/' !in s
    ensures SplitSlash(s) == [s]
  {
    if s != [] {
      SplitSlashNoSeparator(s[1..]);
      assert [s[0]] + s[1..] == s;
    }
  }

  /** Joining a single name appends it, and joining "" or "." changes nothing. */
  lemma JoinName(p: Path, n: string)
    requires '/' !in n
    ensures ValidPart(n) ==> Join(p, n) == Path(p.absolute, p.parts + [n])
    ensures !ValidPart(n) ==> Join(p, n) == p
  {
    SplitSlashNoSeparator(n);
    assert KeepParts([n]) == (if n != "" && n != "." then [n] else []) + KeepParts([]);
  }

  /** A name joined onto a path becomes its final name, under the path as parent. */
  lemma JoinNameParts(p: Path, n: string)
    ensures ValidPath(p) && ValidPart(n) ==> Name(Join(p, n)) == n && Parent(Join(p, n)) == p && ValidPath(Join(p, n))
  {
    if ValidPart(n) {
      JoinName(p, n);
      assert (p.parts + [n])[..|p.parts|] == p.parts;
    }
  }

  /** A valid path is its parent joined with its name. */
  lemma ParentJoinName(p: Path)
    requires ValidPath(p)
    ensures Join(Parent(p), Name(p)) == p
    ensures ValidPath(Parent(p))
  {
    if p.parts != [] {
      JoinName(Parent(p), Name(p));
      assert p.parts[..|p.parts| - 1] + [Name(p)] == p.parts;
    } else {
      JoinName(p, "");
    }
  }

  lemma NameIsValid(p: Path)
    requires ValidPath(p)
    ensures Name(p) == "" || ValidPart(Name(p))
  {
  }

  // ----- existence -----

  /** The filesystem as seen by `os.path`: the paths that exist, and those of them that are files. */
  datatype FileSystem = FileSystem(existing: set<Path>, files: set<Path>)

  datatype PathError =
    | NotAFile(path: Path)               // IOError: the path exists but is not a file
    | InvalidSuffix(suffix: string)      // ValueError from with_suffix
    | EmptyName(path: Path)              // ValueError from with_suffix on a path without a name
    | FileNotFound(attempted: seq<Path>) // no alternative exists; every attempted path is listed

  /** file_exists */
  function FileExists(p: Path, fs: FileSystem): (r: Result<bool, PathError>)
    ensures r == Success(false) <==> p !in fs.existing
    ensures r == Failure(NotAFile(p)) <==> p in fs.existing && p !in fs.files
    ensures r == Success(true) <==> p in fs.existing && p in fs.files
  {
    if p !in fs.existing then Success(false)
    else if p !in fs.files then Failure(NotAFile(p))
    else Success(true)
  }

  // ----- is_csv -----

  function LowerChar(c: char): char
  {
    if 'A' <= c <= 'Z' then (c as int + 32) as char else c
  }

  /**
   * ASCII lower-casing.  Python lowers every Unicode letter, but no
   * character outside ASCII lowers to 'c', 's' or 'v', so comparing with
   * "csv" gives the same answer.
   */
  function Lower(s: string): (r: string)
    ensures |r| == |s|
  {
    seq(|s|, i requires 0 <= i < |s| => LowerChar(s[i]))
  }

  /** is_csv: the text after the last '.' (all of it when there is none), lower-cased, is "csv". */
  function IsCsv(filePath: string): bool
  {
    Lower(filePath[LastDot(filePath) + 1..]) == "csv"
  }

  /** is_csv holds exactly for text ending in "csv" in any case, that is either all of it or preceded by a dot. */
  lemma IsCsvIff(s: string)
    ensures IsCsv(s) <==> |s| >= 3 && Lower(s[|s| - 3..]) == "csv" && (|s| == 3 || s[|s| - 4] == '.')
  {
    var i := LastDot(s);
    if IsCsv(s) {
      assert |s[i + 1..]| == 3;
      assert s[|s| - 3..] == s[i + 1..];
    }
    if |s| >= 3 && Lower(s[|s| - 3..]) == "csv" && (|s| == 3 || s[|s| - 4] == '.') {
      forall k | |s| - 3 <= k < |s|
        ensures s[k] != '.'
      {
        assert Lower(s[|s| - 3..])[k - (|s| - 3)] == LowerChar(s[k]);
      }
      if |s| == 3 {
        assert i == -1;
      } else {
        assert i == |s| - 4;
      }
      assert s[i + 1..] == s[|s| - 3..];
    }
  }

  // ----- suffixes -----

  /** All suffixes stripped from a final name, as the loop of remove_suffixes does. */
  function StripAll(name: string): (r: string)
    ensures Suffix(r) == ""
    ensures r <= name
    ensures r != "."
    decreases |name|
  {
    StemAndSuffix(name);
    var n := NormName(Stem(name));
    StemAndSuffix(n);
    if Suffix(n) == "" then n else StripAll(n)
  }

  /** Stripping again strips nothing more. */
  lemma StripAllIdempotent(name: string)
    ensures StripAll(StripAll(name)) == StripAll(name)
  {
    StemAndSuffix(StripAll(name));
  }

  /** The path with every suffix of its final name removed, parent kept (`remove_suffixes`). */
  function WithoutSuffixes(p: Path): Path
  {
    Join(Parent(p), StripAll(Name(p)))
  }

  /** remove_suffixes */
  method RemoveSuffixes(path: Path) returns (r: Path)
    requires ValidPath(path)
    ensures r == WithoutSuffixes(path)
    ensures StripAll(Name(path)) != "" ==>
      Parent(r) == Parent(path) && Name(r) == StripAll(Name(path)) && Suffix(Name(r)) == "" && Name(r) <= Name(path)
    ensures StripAll(Name(path)) == "" ==> r == Parent(path)
  {
    var parent := Parent(path);
    var prev := Name(path);
    NameIsValid(path);
    var next := NormName(Stem(prev));
    while true
      invariant StripAll(prev) == StripAll(Name(path))
      invariant '/' !in prev
      decreases |prev|
    {
      StemAndSuffix(prev);
      next := NormName(Stem(prev));
      StemAndSuffix(next);
      assert '/' !in next by {
        assert Stem(prev) <= prev;
      }
      if Suffix(next) == "" {
        break;
      }
      prev := next;
    }
    r := Join(parent, next);
    ParentJoinName(path);
    JoinName(parent, next);
    if next != "" {
      JoinNameParts(parent, next);
    }
  }

  /** The path `a.csv.bz2` under `data` becomes `a` under `data`. */
  lemma RemoveSuffixesExample()
    ensures WithoutSuffixes(Path(false, ["data", "a.csv.bz2"])) == Path(false, ["data", "a"])
  {
    var full, mid := "a.csv.bz2", "a.csv";
    assert full[5] == '.' && full[6] != '.' && full[7] != '.' && full[8] != '.';
    assert LastDot(full) == 5;
    assert Stem(full) == mid;
    assert mid[1] == '.' && mid[2] != '.' && mid[3] != '.' && mid[4] != '.';
    assert LastDot(mid) == 1;
    assert Stem(mid) == "a";
    assert LastDot("a") == -1;
    assert StripAll("a.csv") == "a";
    assert StripAll("a.csv.bz2") == "a";
    var p := Path(false, ["data", full]);
    assert Parent(p) == Path(false, ["data"]) && Name(p) == full;
    JoinName(Path(false, ["data"]), "a");
  }

  /** A suffix pathlib recognises: a dot and at least one more character, no other dot and no separator. */
  predicate ProperSuffix(s: string)
  {
    |s| >= 2 && s[0] == '.' && '.' !in s[1..] && '/' !in s
  }

  /** A proper suffix appended to a non-empty stem is read back as that suffix. */
  lemma SuffixOfAppended(stem: string, s: string)
    ensures stem != "" && ProperSuffix(s) ==> Suffix(stem + s) == s && Stem(stem + s) == stem
  {
    if stem != "" && ProperSuffix(s) {
      var n := stem + s;
      assert n[|stem|] == '.';
      forall k | |stem| < k < |n|
        ensures n[k] != '.'
      {
        assert n[k] == s[1..][k - |stem| - 1];
      }
      assert LastDot(n) == |stem|;
      assert n[|stem|..] == s && n[..|stem|] == stem;
    }
  }

  /** A name without a dot is its own stem and has no suffix. */
  lemma NoDotNoSuffix(n: string)
    requires '.' !in n
    ensures Suffix(n) == "" && Stem(n) == n
  {
  }

  /** Removing one suffix from a name whose stem still has a suffix leaves a proper name under the same parent. */
  lemma StemRejoin(path: Path)
    ensures ValidPath(path) && Suffix(Stem(Name(path))) != "" ==>
      Name(Join(Parent(path), Stem(Name(path)))) == Stem(Name(path)) && Parent(Join(Parent(path), Stem(Name(path)))) == Parent(path)
  {
    if ValidPath(path) && Suffix(Stem(Name(path))) != "" {
      var stem := Stem(Name(path));
      StemAndSuffix(Name(path));
      StemAndSuffix(stem);
      ParentJoinName(path);
      assert stem <= Name(path);
      JoinNameParts(Parent(path), stem);
    }
  }

  /** maybe_add_suffix as written: with overwrite it removes one suffix, then adds the new one only if no suffix is left. */
  function AsWrittenMaybeAddSuffix(path: Path, suffix: string, overwrite: bool): (r: Path)
    ensures ValidPath(path) && !overwrite ==> r == MaybeAddSuffix(path, suffix, false)
    ensures ValidPath(path) && overwrite && Suffix(Stem(Name(path))) != "" ==> r == WithoutFtype(path)
  {
    StemRejoin(path);
    var p := if overwrite then Join(Parent(path), Stem(Name(path))) else path;
    if Suffix(Name(p)) == "" then Join(Parent(p), Name(p) + suffix) else p
  }

  /** With two suffixes, as written the new suffix is never added: `a.tar.gz` with ".csv" becomes `a.tar`. */
  lemma AsWrittenMaybeAddSuffixDropsSuffix()
    ensures AsWrittenMaybeAddSuffix(Path(false, ["a.tar.gz"]), ".csv", true) == Path(false, ["a.tar"])
  {
    var name, stem := "a.tar.gz", "a.tar";
    assert name[5] == '.' && name[6] != '.' && name[7] != '.';
    assert LastDot(name) == 5;
    assert Stem(name) == stem;
    JoinName(Path(false, []), stem);
    var p := Path(false, [stem]);
    assert Name(p) == stem;
    assert stem[1] == '.' && stem[2] != '.' && stem[3] != '.' && stem[4] != '.';
    assert LastDot(stem) == 1;
    assert Suffix(stem) == ".tar";
  }

  /**
   * maybe_add_suffix as its documentation describes it: with overwrite the
   * final suffix is replaced by the new one; without, the new suffix is added
   * only to a name that has none.
   */
  function MaybeAddSuffix(path: Path, suffix: string, overwrite: bool): (r: Path)
    requires ValidPath(path)
    ensures overwrite && ProperSuffix(suffix) && Name(path) != "" ==>
      Parent(r) == Parent(path) && Stem(Name(r)) == Stem(Name(path)) && Suffix(Name(r)) == suffix
    ensures !overwrite && Suffix(Name(path)) != "" ==> r == path
    ensures !overwrite && Suffix(Name(path)) == "" && ProperSuffix(suffix) && Name(path) != "" ==>
      Parent(r) == Parent(path) && Stem(Name(r)) == Name(path) && Suffix(Name(r)) == suffix
  {
    StemAndSuffix(Name(path));
    ParentJoinName(path);
    assert Stem(Name(path)) <= Name(path);
    if overwrite then
      var n := Stem(Name(path)) + suffix;
      JoinNameParts(Parent(path), n);
      SuffixOfAppended(Stem(Name(path)), suffix);
      Join(Parent(path), n)
    else if Suffix(Name(path)) == "" then
      var n := Name(path) + suffix;
      JoinNameParts(Parent(path), n);
      SuffixOfAppended(Name(path), suffix);
      Join(Parent(path), n)
    else path
  }

  /** As written and as described agree whenever the name has at most one suffix. */
  lemma MaybeAddSuffixAgreesOnOneSuffix(path: Path, suffix: string, overwrite: bool)
    requires ValidPath(path) && Suffix(Stem(Name(path))) == "" && Stem(Name(path)) != "."
    ensures AsWrittenMaybeAddSuffix(path, suffix, overwrite) == MaybeAddSuffix(path, suffix, overwrite)
  {
    StemAndSuffix(Name(path));
    ParentJoinName(path);
    var st := Stem(Name(path));
    assert st <= Name(path);
    JoinName(Parent(path), st);
    if overwrite {
      if st == "" {
        assert path.parts == [] && Parent(path) == path;
      } else {
        JoinNameParts(Parent(path), st);
        var p := Join(Parent(path), st);
        assert Name(p) == st && Parent(p) == Parent(path);
      }
    }
  }

  // ----- with_suffix and find_filename -----

  /** `PurePath.with_suffix` (Python 3.8 to 3.11). */
  function WithSuffix(p: Path, suffix: string): (r: Result<Path, PathError>)
    ensures r == Failure(InvalidSuffix(suffix)) <==> '/' in suffix || (suffix != "" && suffix[0] != '.') || suffix == "."
    ensures r == Failure(EmptyName(p)) <==> !('/' in suffix || (suffix != "" && suffix[0] != '.') || suffix == ".") && Name(p) == ""
    ensures r.Success? && ValidPath(p) && ProperSuffix(suffix) ==>
      Parent(r.value) == Parent(p) && Stem(Name(r.value)) == Stem(Name(p)) && Suffix(Name(r.value)) == suffix
  {
    if '/' in suffix || (suffix != "" && suffix[0] != '.') || suffix == "." then Failure(InvalidSuffix(suffix))
    else if Name(p) == "" then Failure(EmptyName(p))
    else
      var q := Path(p.absolute, p.parts[..|p.parts| - 1] + [Stem(Name(p)) + suffix]);
      assert q.parts[..|q.parts| - 1] == p.parts[..|p.parts| - 1];
      StemAndSuffix(Name(p));
      SuffixOfAppended(Stem(Name(p)), suffix);
      Success(q)
  }

  /** PD_COMPRESSION, the compression extensions pandas understands. */
  const PdCompression: set<string> := {".zip", ".gzip", ".bz2", ".zstd", ".csv.bz2"}

  /** `list(PD_COMPRESSION)`: some ordering of the set, which Python does not fix. */
  predicate IsPdCompressionOrder(order: seq<string>)
  {
    |order| == |PdCompression| && (forall t :: t in order ==> t in PdCompression) && (forall t :: t in PdCompression ==> t in order)
  }

  /** The default alternative types of find_filename. */
  function DefaultAltTypes(compressionOrder: seq<string>): seq<string>
  {
    [".pbz2", ".csv"] + compressionOrder
  }

  /** A file type made to start with a dot. */
  function Dotted(t: string): (r: string)
    ensures |r| > 0 && r[0] == '.'
    ensures r == t || r == "." + t
  {
    if |t| > 0 && t[0] == '.' then t else "." + t
  }

  function NormaliseTypes(ts: seq<string>): (r: seq<string>)
    ensures |r| == |ts|
  {
    seq(|ts|, i requires 0 <= i < |ts| => Dotted(ts[i]))
  }

  /** What find_filename hands back: the whole path, or only its final name. */
  datatype Found = FullPath(path: Path) | NameOnly(name: string)

  function Ret(p: Path, returnFullPath: bool): Found
  {
    if returnFullPath then FullPath(p) else NameOnly(Name(p))
  }

  /** Prefix the attempts made before a "not found" outcome; other outcomes pass through. */
  function Extend(ps: seq<Path>, r: Result<Path, PathError>): Result<Path, PathError>
  {
    if r.Failure? && r.error.FileNotFound? then Failure(FileNotFound(ps + r.error.attempted)) else r
  }

  lemma ExtendTwice(a: seq<Path>, b: seq<Path>, r: Result<Path, PathError>)
    ensures Extend(a, Extend(b, r)) == Extend(a + b, r)
  {
    if r.Failure? && r.error.FileNotFound? {
      assert a + (b + r.error.attempted) == (a + b) + r.error.attempted;
    }
  }

  /** The search over the alternative types: the first existing candidate, or every attempt. */
  function Search(base: Path, ts: seq<string>, fs: FileSystem): Result<Path, PathError>
  {
    if ts == [] then Failure(FileNotFound([]))
    else match WithSuffix(base, ts[0])
      case Failure(e) => Failure(e)
      case Success(p) => if p in fs.existing then Success(p) else Extend([p], Search(base, ts[1..], fs))
  }

  /** A found path is the first candidate that exists; every earlier candidate was valid and absent. */
  lemma {:induction false} SearchFound(base: Path, ts: seq<string>, fs: FileSystem, p: Path)
    requires Search(base, ts, fs) == Success(p)
    ensures exists k :: (0 <= k < |ts| && WithSuffix(base, ts[k]) == Success(p) && p in fs.existing &&
      forall j :: 0 <= j < k ==> WithSuffix(base, ts[j]).Success? && WithSuffix(base, ts[j]).value !in fs.existing)
  {
    var q := WithSuffix(base, ts[0]).value;
    if q !in fs.existing {
      var rest := Search(base, ts[1..], fs);
      assert rest == Success(p);
      SearchFound(base, ts[1..], fs, p);
      var k :| 0 <= k < |ts[1..]| && WithSuffix(base, ts[1..][k]) == Success(p) && p in fs.existing &&
        forall j :: 0 <= j < k ==> WithSuffix(base, ts[1..][j]).Success? && WithSuffix(base, ts[1..][j]).value !in fs.existing;
      assert ts[k + 1] == ts[1..][k];
      forall j | 0 <= j < k + 1
        ensures WithSuffix(base, ts[j]).Success? && WithSuffix(base, ts[j]).value !in fs.existing
      {
        if j > 0 {
          assert ts[j] == ts[1..][j - 1];
        }
      }
    } else {
      assert WithSuffix(base, ts[0]) == Success(p);
    }
  }

  /** "Not found" exactly when every candidate is valid and absent; the error lists them all, in order. */
  lemma {:induction false} SearchNotFound(base: Path, ts: seq<string>, fs: FileSystem, ps: seq<Path>)
    ensures Search(base, ts, fs) == Failure(FileNotFound(ps)) <==>
      |ps| == |ts| && forall k :: 0 <= k < |ts| ==> WithSuffix(base, ts[k]) == Success(ps[k]) && ps[k] !in fs.existing
  {
    if ts != [] {
      var w := WithSuffix(base, ts[0]);
      if |ps| > 0 {
        SearchNotFound(base, ts[1..], fs, ps[1..]);
      }
      if Search(base, ts, fs) == Failure(FileNotFound(ps)) {
        assert w.Success? && w.value !in fs.existing;
        var rest := Search(base, ts[1..], fs);
        assert rest.Failure? && rest.error.FileNotFound?;
        assert ps == [w.value] + rest.error.attempted;
        assert rest == Failure(FileNotFound(ps[1..]));
        forall k | 0 <= k < |ts|
          ensures WithSuffix(base, ts[k]) == Success(ps[k]) && ps[k] !in fs.existing
        {
          if k > 0 {
            assert ts[k] == ts[1..][k - 1] && ps[k] == ps[1..][k - 1];
          }
        }
      }
      if |ps| == |ts| && forall k :: 0 <= k < |ts| ==> WithSuffix(base, ts[k]) == Success(ps[k]) && ps[k] !in fs.existing {
        assert w == Success(ps[0]);
        forall k | 0 <= k < |ts[1..]|
          ensures WithSuffix(base, ts[1..][k]) == Success(ps[1..][k]) && ps[1..][k] !in fs.existing
        {
          assert ts[1..][k] == ts[k + 1] && ps[1..][k] == ps[k + 1];
        }
        assert [ps[0]] + ps[1..] == ps;
      }
    }
  }

  /** find_filename's outcome: the given path if it has a suffix and exists, else the search over the dotted types. */
  function FindSpec(path: Path, altTypes: seq<string>, returnFullPath: bool, fs: FileSystem): Result<Found, PathError>
  {
    if Suffix(Name(path)) != "" && path in fs.existing then Success(Ret(path, returnFullPath))
    else match Search(WithoutSuffixes(path), NormaliseTypes(altTypes), fs)
      case Success(p) => Success(Ret(p, returnFullPath))
      case Failure(e) => Failure(e)
  }

  /** The loop of find_filename that makes every alternative type start with a dot. */
  method NormaliseAltTypes(given: seq<string>) returns (types: seq<string>)
    ensures types == NormaliseTypes(given)
  {
    types := [];
    var k := 0;
    while k < |given|
      invariant 0 <= k <= |given|
      invariant |types| == k && forall i :: 0 <= i < k ==> types[i] == Dotted(given[i])
    {
      var t := given[k];
      if !(|t| > 0 && t[0] == '.') {
        t := "." + t;
      }
      types := types + [t];
      k := k + 1;
    }
  }

  /** The loop of find_filename that tries each alternative type in order, recording every attempt. */
  method SearchAlternatives(base: Path, types: seq<string>, fs: FileSystem) returns (r: Result<Path, PathError>)
    ensures r == Search(base, types, fs)
  {
    var attempted: seq<Path> := [];
    var i := 0;
    assert types[i..] == types;
    assert Extend(attempted, Search(base, types, fs)) == Search(base, types, fs) by {
      var r := Search(base, types, fs);
      if r.Failure? && r.error.FileNotFound? {
        assert attempted + r.error.attempted == r.error.attempted;
      }
    }
    while i < |types|
      invariant 0 <= i <= |types|
      invariant Search(base, types, fs) == Extend(attempted, Search(base, types[i..], fs))
    {
      assert types[i..][1..] == types[i + 1..];
      var candidate := WithSuffix(base, types[i]);
      if candidate.Failure? {
        return Failure(candidate.error);
      }
      var p := candidate.value;
      attempted := attempted + [p];
      if p in fs.existing {
        return Success(p);
      }
      ExtendTwice(attempted[..|attempted| - 1], [p], Search(base, types[i + 1..], fs));
      assert attempted[..|attempted| - 1] + [p] == attempted;
      i := i + 1;
    }
    assert types[i..] == [];
    assert attempted + [] == attempted;
    return Failure(FileNotFound(attempted));
  }

  /** find_filename */
  method FindFilename(path: Path, altTypes: Option<seq<string>>, compressionOrder: seq<string>, returnFullPath: bool, fs: FileSystem)
    returns (r: Result<Found, PathError>)
    requires ValidPath(path)
    requires altTypes.None? ==> IsPdCompressionOrder(compressionOrder)
    ensures r == FindSpec(path, altTypes.GetOr(DefaultAltTypes(compressionOrder)), returnFullPath, fs)
  {
    var types := NormaliseAltTypes(altTypes.GetOr(DefaultAltTypes(compressionOrder)));

    // Try to find the path as is
    if Suffix(Name(path)) != "" && path in fs.existing {
      return Success(Ret(path, returnFullPath));
    }

    // Try to find similar paths
    var base := RemoveSuffixes(path);
    var found := SearchAlternatives(base, types, fs);
    match found
    case Success(p) => return Success(Ret(p, returnFullPath));
    case Failure(e) => return Failure(e);
  }

  // ----- filename_in_list -----

  /** `item.parent / item.stem`: the path with its final suffix removed. */
  function WithoutFtype(p: Path): Path
  {
    Join(Parent(p), Stem(Name(p)))
  }

  /** `nd.PathLike`: a plain string or a `pathlib.Path`; the two never compare equal. */
  datatype PathLike = Str(s: string) | PathObj(p: Path)

  /** `pathlib.Path(x)`: a string is parsed into parts, a path is kept. */
  function AsPath(x: PathLike): Path
  {
    match x
    case Str(s) => Join(Path(false, []), s)
    case PathObj(p) => p
  }

  /** A string without a separator parses to the one-part path of that name, or to the empty path. */
  lemma StrNameAsPath(n: string)
    requires '/' !in n
    ensures AsPath(Str(n)) == (if ValidPart(n) then Path(false, [n]) else Path(false, []))
  {
    JoinName(Path(false, []), n);
  }

  /** The string "a.csv" and the path it parses to are different list items, but the same path. */
  lemma StrAndPathDiffer()
    ensures Str("a.csv") != PathObj(AsPath(Str("a.csv")))
    ensures AsPath(Str("a.csv")) == Path(false, ["a.csv"])
    ensures Str("./a.csv") != Str("a.csv") && AsPath(Str("./a.csv")) == AsPath(Str("a.csv"))
  {
    StrNameAsPath("a.csv");
    assert KeepParts(SplitSlash("./a.csv")) == ["a.csv"] by {
      assert SplitSlash("a.csv") == ["a.csv"] by { SplitSlashNoSeparator("a.csv"); }
      assert "./a.csv"[1..] == "/a.csv" && "/a.csv"[1..] == "a.csv";
      assert SplitSlash("/a.csv") == ["", "a.csv"];
      assert SplitSlash("./a.csv") == [".", "a.csv"];
    }
  }

  /** filename_in_list: without `ignore_ftype` the raw values are compared (a string never
      equals a path, and two strings are compared character by character); with it, both
      sides are parsed into paths and compared with their final suffix removed. */
  method FilenameInList(filename: PathLike, lst: seq<PathLike>, ignoreFtype: bool) returns (found: bool)
    ensures !ignoreFtype ==> (found <==> filename in lst)
    ensures ignoreFtype ==> (found <==> exists i :: 0 <= i < |lst| && WithoutFtype(AsPath(lst[i])) == WithoutFtype(AsPath(filename)))
  {
    if !ignoreFtype {
      return filename in lst;
    }
    var target := WithoutFtype(AsPath(filename));
    var i := 0;
    while i < |lst|
      invariant 0 <= i <= |lst|
      invariant forall j :: 0 <= j < i ==> WithoutFtype(AsPath(lst[j])) != target
    {
      if WithoutFtype(AsPath(lst[i])) == target {
        return true;
      }
      i := i + 1;
    }
    return false;
  }

  // ----- remove_from_fname and add_to_fname -----

  /** `s.startswith(x, i)`. */
  predicate OccursAt(s: string, x: string, i: nat)
  {
    i + |x| <= |s| && s[i..i + |x|] == x
  }

  /** `s.replace(x, '')`: every occurrence of `x`, found left to right without overlap, deleted. */
  function ReplaceAll(s: string, x: string): (r: string)
    ensures |r| <= |s|
    ensures x != "" && (forall i: nat :: i < |s| ==> !OccursAt(s, x, i)) ==> r == s
    decreases |s|
  {
    if x == [] || |s| < |x| then s
    else if s[..|x|] == x then
      assert OccursAt(s, x, 0);
      ReplaceAll(s[|x|..], x)
    else
      var rest := ReplaceAll(s[1..], x);
      assert x != "" && (forall i: nat :: i < |s| ==> !OccursAt(s, x, i)) ==> rest == s[1..] by {
        if x != "" && (forall i: nat :: i < |s| ==> !OccursAt(s, x, i)) {
          forall i: nat | i < |s[1..]|
            ensures !OccursAt(s[1..], x, i)
          {
            assert !OccursAt(s, x, i + 1);
            if i + |x| <= |s[1..]| {
              assert s[1..][i..i + |x|] == s[i + 1..i + 1 + |x|];
            }
          }
        }
      }
      [s[0]] + rest
  }

  /** Text appended to a stem is deleted again, provided it does not occur earlier in the joined text. */
  lemma {:induction false} ReplaceAllAppended(stem: string, x: string)
    requires x != ""
    requires forall i: nat :: i < |stem| ==> !OccursAt(stem + x, x, i)
    ensures ReplaceAll(stem + x, x) == stem
  {
    var s := stem + x;
    if stem == [] {
      assert s == x && s[..|x|] == x && s[|x|..] == [];
    } else {
      assert !OccursAt(s, x, 0);
      assert s[..|x|] != x;
      assert s[1..] == stem[1..] + x;
      forall i: nat | i < |stem[1..]|
        ensures !OccursAt(stem[1..] + x, x, i)
      {
        assert !OccursAt(s, x, i + 1);
        assert (stem[1..] + x)[i..i + |x|] == s[i + 1..i + 1 + |x|];
      }
      ReplaceAllAppended(stem[1..], x);
      assert [stem[0]] + stem[1..] == stem;
    }
  }

  /** remove_from_fname: `to_remove` deleted from the stem; the parent and the suffix are kept. */
  function RemoveFromFname(path: Path, toRemove: string): (r: Path)
    ensures ValidPath(path) && ValidPart(ReplaceAll(Stem(Name(path)), toRemove) + Suffix(Name(path))) ==>
      Parent(r) == Parent(path) && Name(r) == ReplaceAll(Stem(Name(path)), toRemove) + Suffix(Name(path))
    ensures ValidPath(path) && ReplaceAll(Stem(Name(path)), toRemove) + Suffix(Name(path)) == "" ==> r == Parent(path)
  {
    var n := ReplaceAll(Stem(Name(path)), toRemove) + Suffix(Name(path));
    StemAndSuffix(Name(path));
    if ValidPath(path) then
      ParentJoinName(path);
      assert '/' !in n by {
        ReplaceAllKeepsOut(Stem(Name(path)), toRemove, '/');
        assert Suffix(Name(path)) == Name(path)[|Stem(Name(path))|..];
      }
      JoinName(Parent(path), n);
      JoinNameParts(Parent(path), n);
      Join(Parent(path), n)
    else Join(Parent(path), n)
  }

  /** Deleting text never introduces a character that was not there. */
  lemma {:induction false} ReplaceAllKeepsOut(s: string, x: string, c: char)
    requires c !in s
    ensures c !in ReplaceAll(s, x)
    decreases |s|
  {
    if x != [] && |s| >= |x| {
      if s[..|x|] == x {
        ReplaceAllKeepsOut(s[|x|..], x, c);
      } else {
        ReplaceAllKeepsOut(s[1..], x, c);
      }
    }
  }

  /** add_to_fname: `to_add` appended to the stem, before the suffix. */
  function AddToFname(path: Path, toAdd: string): Path
  {
    Join(Parent(path), Stem(Name(path)) + toAdd + Suffix(Name(path)))
  }

  /** Text without dots or separators lands at the end of the stem; the parent and the suffix are kept. */
  lemma AddToFnameShape(path: Path, toAdd: string)
    requires ValidPath(path) && toAdd != "" && '.' !in toAdd && '/' !in toAdd
    requires Suffix(Name(path)) != "" || '.' !in Name(path)
    ensures ValidPath(AddToFname(path, toAdd)) && Parent(AddToFname(path, toAdd)) == Parent(path)
    ensures Stem(Name(AddToFname(path, toAdd))) == Stem(Name(path)) + toAdd
    ensures Suffix(Name(AddToFname(path, toAdd))) == Suffix(Name(path))
  {
    var n := Name(path);
    var m := Stem(n) + toAdd + Suffix(n);
    StemAndSuffix(n);
    ParentJoinName(path);
    NameIsValid(path);
    assert Stem(n) <= n;
    assert '/' !in m by {
      assert Suffix(n) == n[|Stem(n)|..];
    }
    assert m != "." by {
      assert toAdd[0] in m && toAdd[0] != '.';
    }
    JoinNameParts(Parent(path), m);
    if Suffix(n) != "" {
      assert '/' !in Suffix(n) by {
        assert Suffix(n) == n[|Stem(n)|..];
      }
      SuffixOfAppended(Stem(n) + toAdd, Suffix(n));
    } else {
      NoDotNoSuffix(m);
    }
  }

  /** Removing what was just added gives the path back, when the added text does not occur earlier. */
  lemma AddThenRemove(path: Path, x: string)
    requires ValidPath(path) && x != "" && '.' !in x && '/' !in x
    requires Suffix(Name(path)) != "" || '.' !in Name(path)
    requires forall i: nat :: i < |Stem(Name(path))| ==> !OccursAt(Stem(Name(path)) + x, x, i)
    ensures RemoveFromFname(AddToFname(path, x), x) == path
  {
    var q := AddToFname(path, x);
    AddToFnameShape(path, x);
    var n := Name(path);
    StemAndSuffix(n);
    ReplaceAllAppended(Stem(n), x);
    assert ReplaceAll(Stem(Name(q)), x) + Suffix(Name(q)) == n;
    NameIsValid(path);
    ParentJoinName(path);
    JoinName(Parent(path), n);
  }

  // ----- get_latest_modified_time -----

  /** get_latest_modified_time, given the modification time of each path in turn. */
  method LatestModifiedTime(times: seq<real>) returns (latest: real)
    ensures latest >= -1.0
    ensures forall t :: t in times ==> t <= latest
    ensures latest == -1.0 || latest in times
  {
    latest := -1.0;
    var i := 0;
    while i < |times|
      invariant 0 <= i <= |times|
      invariant latest >= -1.0
      invariant forall j :: 0 <= j < i ==> times[j] <= latest
      invariant latest == -1.0 || latest in times[..i]
    {
      if times[i] > latest {
        latest := times[i];
      }
      i := i + 1;
    }
    assert times[..i] == times;
  }
}
