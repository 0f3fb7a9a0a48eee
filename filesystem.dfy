/**
 * The filesystem as the script sees it through os.path.exists, os.path.isdir,
 * os.mkdir, shutil.move and shutil.copy2, and the specifications of makedir
 * (sortdate.py:81-88) and copymovefile (sortdate.py:136-158) over it.
 */
module FileSystem {
  import opened Results
  import opened Paths

  /** The directories and the (non-directory) files that exist, by path. */
  datatype FsState = FsState(dirs: set<string>, files: set<string>)

  /** os.path.exists */
  predicate Exists(st: FsState, p: string)
  {
    p in st.dirs || p in st.files
  }

  /** os.path.isdir */
  predicate IsDir(st: FsState, p: string)
  {
    p in st.dirs
  }

  /**
   * A state that stands for a real filesystem: the current directory and the
   * root exist as directories, and no path is both a directory and a file.
   */
  predicate WellFormed(st: FsState)
  {
    "." in st.dirs && "/" in st.dirs && st.dirs !! st.files
  }

  /**
   * The directory that would hold p exists: the current directory when p has
   * no '/', the root when its only '/' leads, otherwise the text before the last '/'.
   * The empty path has no place at all (os.mkdir('') fails).
   */
  predicate ParentExists(st: FsState, p: string)
  {
    match LastSlash(p)
    case None => p != ""
    case Some(i) => i == 0 || p[..i] in st.dirs
  }

  /** The exceptions that end a run of the script. */
  datatype Error =
    | FileExists(path: string)   // os.mkdir on a path that exists and is not a directory
    | NoParent(path: string)     // os.mkdir, shutil.move or shutil.copy2 into a missing directory
    | NoSource(path: string)     // open, shutil.move or shutil.copy2 of a missing file
    | NoDirName(file: string)    // makedir(None): the date tag was empty
    | NoLocation(file: string)   // get_gps_location raised

  /** The result of an operation together with the filesystem after it. */
  datatype Effect<T> = Effect(result: Result<T, Error>, st: FsState)

  /**
   * makedir(dirname): false and no change when dirname is a directory,
   * otherwise os.mkdir, which fails when dirname exists as a file or its
   * parent is missing, and creates exactly that one directory otherwise.
   */
  function MakeDirSpec(st: FsState, d: string): (e: Effect<bool>)
    ensures e.result.Ok? <==> IsDir(st, d) || (!Exists(st, d) && ParentExists(st, d))
    ensures e.result.Ok? ==> IsDir(e.st, d) && e.result.value == !IsDir(st, d)
    ensures e.result.Ok? ==> e.st.dirs == st.dirs + {d} && e.st.files == st.files
    ensures e.result.Err? ==> e.st == st
    ensures e.result.Err? ==> e.result.error == if Exists(st, d) then FileExists(d) else NoParent(d)
  {
    if Exists(st, d) && IsDir(st, d) then Effect(Ok(false), st)
    else if Exists(st, d) then Effect(Err(FileExists(d)), st)
    else if !ParentExists(st, d) then Effect(Err(NoParent(d)), st)
    else Effect(Ok(true), FsState(st.dirs + {d}, st.files))
  }

  /** A second makedir of the same path reports false and changes nothing. */
  lemma MakeDirIdempotent(st: FsState, d: string)
    requires MakeDirSpec(st, d).result.Ok?
    ensures MakeDirSpec(MakeDirSpec(st, d).st, d) == Effect(Ok(false), MakeDirSpec(st, d).st)
  {
  }

  lemma MakeDirKeepsWellFormed(st: FsState, d: string)
    requires WellFormed(st)
    ensures WellFormed(MakeDirSpec(st, d).st)
  {
  }

  /**
   * With the default destdir '.': makedir('.') reports false, and a key
   * './name' is created on its first makedir, the current directory being its parent.
   */
  lemma MakeDirInCurrentDir(st: FsState, name: string)
    requires WellFormed(st) && '/' !in name
    ensures MakeDirSpec(st, ".") == Effect(Ok(false), st)
    ensures !Exists(st, Join(".", name)) ==>
      MakeDirSpec(st, Join(".", name)) == Effect(Ok(true), FsState(st.dirs + {Join(".", name)}, st.files))
  {
    JoinSplits(".", name);
  }

  /** A decimal digit. */
  function Digit(n: nat): (c: char)
    requires n < 10
    ensures '0' <= c <= '9'
  {
    ('0' as int + n) as char
  }

  /** str(n) */
  function Decimal(n: nat): (s: string)
    ensures |s| >= 1
    ensures n < 10 <==> |s| == 1
    ensures 10 <= n < 100 <==> |s| == 2
    ensures 100 <= n < 1000 <==> |s| == 3
  {
    if n < 10 then [Digit(n)] else Decimal(n / 10) + [Digit(n % 10)]
  }

  /** The digits str(n) writes for n below 1000. */
  lemma {:induction false} DecimalBelow1000(n: nat)
    requires n < 1000
    ensures n < 10 ==> Decimal(n) == [Digit(n)]
    ensures 10 <= n < 100 ==> Decimal(n) == [Digit(n / 10), Digit(n % 10)]
    ensures 100 <= n ==> Decimal(n) == [Digit(n / 100), Digit(n / 10 % 10), Digit(n % 10)]
  {
    if 10 <= n {
      DecimalBelow1000(n / 10);
      assert n / 10 / 10 == n / 100;
    }
  }

  /** '%03d' % n: str(n) padded on the left with '0' to three characters. */
  function Format03(n: nat): (s: string)
    ensures |s| >= 3
    ensures n < 1000 ==> s == [Digit(n / 100), Digit(n / 10 % 10), Digit(n % 10)]
  {
    var d := Decimal(n);
    if n < 1000 then DecimalBelow1000(n); (if |d| < 3 then seq(3 - |d|, _ => '0') + d else d)
    else d
  }

  /** The k-th name tried for filename: the name itself, then '%03d_' % k + filename. */
  function Candidate(filename: string, k: nat): string
  {
    if k == 0 then filename else Format03(k) + "_" + filename
  }

  /** '%03d' writes different numbers below 1000 differently. */
  lemma Format03Injective(j: nat, k: nat)
    requires j < 1000 && k < 1000 && Format03(j) == Format03(k)
    ensures j == k
  {
    assert j / 100 == k / 100 && j / 10 % 10 == k / 10 % 10 && j % 10 == k % 10 by {
      assert Format03(j)[0] == Format03(k)[0];
      assert Format03(j)[1] == Format03(k)[1];
      assert Format03(j)[2] == Format03(k)[2];
    }
    assert j / 10 == 10 * (j / 10 / 10) + j / 10 % 10;
    assert k / 10 == 10 * (k / 10 / 10) + k / 10 % 10;
    assert j / 10 / 10 == j / 100 && k / 10 / 10 == k / 100;
  }

  /** The 1000 names copymovefile tries are pairwise different. */
  lemma CandidatesDistinct(filename: string, j: nat, k: nat)
    requires j < 1000 && k < 1000 && j != k
    ensures Candidate(filename, j) != Candidate(filename, k)
  {
    if j != 0 && k != 0 && Candidate(filename, j) == Candidate(filename, k) {
      assert Candidate(filename, j)[..3] == Format03(j);
      assert Candidate(filename, k)[..3] == Format03(k);
      Format03Injective(j, k);
    }
  }

  /** The paths of the first n candidates for filename in dir. */
  function CandidatePaths(dir: string, filename: string, n: nat): set<string>
  {
    if n == 0 then {} else CandidatePaths(dir, filename, n - 1) + {Join(dir, Candidate(filename, n - 1))}
  }

  /** A later candidate's path is not among the earlier ones. */
  lemma {:induction false} LaterCandidateIsNew(dir: string, filename: string, n: nat, m: nat)
    requires n <= m < 1000
    ensures Join(dir, Candidate(filename, m)) !in CandidatePaths(dir, filename, n)
  {
    if n > 0 {
      LaterCandidateIsNew(dir, filename, n - 1, m);
      CandidatesDistinct(filename, n - 1, m);
      var a := Join(dir, Candidate(filename, n - 1));
      var b := Join(dir, Candidate(filename, m));
      assert a[|dir| + 1..] == Candidate(filename, n - 1);
      assert b[|dir| + 1..] == Candidate(filename, m);
    }
  }

  lemma {:induction false} CandidatePathsCount(dir: string, filename: string, n: nat)
    requires n <= 1000
    ensures |CandidatePaths(dir, filename, n)| == n
  {
    if n > 0 {
      CandidatePathsCount(dir, filename, n - 1);
      LaterCandidateIsNew(dir, filename, n - 1, n - 1);
    }
  }

  lemma {:induction false} TakenCandidatesExist(st: FsState, dir: string, filename: string, n: nat)
    requires forall k :: 0 <= k < n ==> Taken(st, dir, filename, k)
    ensures CandidatePaths(dir, filename, n) <= st.dirs + st.files
  {
    if n > 0 {
      TakenCandidatesExist(st, dir, filename, n - 1);
      assert Taken(st, dir, filename, n - 1);
    }
  }

  /** copymovefile gives up only when at least 1000 different paths exist. */
  lemma ExhaustionNeedsThousandPaths(st: FsState, dir: string, filename: string)
    requires TargetName(st, dir, filename).None?
    ensures |st.dirs + st.files| >= 1000
  {
    CandidatePathsCount(dir, filename, 1000);
    TakenCandidatesExist(st, dir, filename, 1000);
    var tried, all := CandidatePaths(dir, filename, 1000), st.dirs + st.files;
    assert all == tried + (all - tried);
    assert |all| == |tried| + |all - tried|;
  }

  /** The k-th candidate for filename already exists in dir. */
  predicate Taken(st: FsState, dir: string, filename: string, k: nat)
  {
    Exists(st, Join(dir, Candidate(filename, k)))
  }

  /** The least k in [from, 999] whose candidate does not exist in dir. */
  function FirstFree(st: FsState, dir: string, filename: string, from: nat): (r: Option<nat>)
    decreases 1000 - from
    ensures r.Some? ==> from <= r.value <= 999 && !Taken(st, dir, filename, r.value)
    ensures r.Some? ==> forall j :: from <= j < r.value ==> Taken(st, dir, filename, j)
    ensures r.None? <==> forall j :: from <= j <= 999 ==> Taken(st, dir, filename, j)
  {
    if from > 999 then None
    else if !Taken(st, dir, filename, from) then Some(from)
    else FirstFree(st, dir, filename, from + 1)
  }

  /**
   * The name copymovefile picks in dir: filename when free, else the first free
   * '%03d_' variant, none when all 1000 are taken. The name never exists beforehand.
   */
  function TargetName(st: FsState, dir: string, filename: string): (r: Option<string>)
    ensures !Exists(st, Join(dir, filename)) ==> r == Some(filename)
    ensures r.Some? ==> !Exists(st, Join(dir, r.value))
    ensures r.Some? && Exists(st, Join(dir, filename)) ==>
      exists k :: 1 <= k <= 999 && r.value == Candidate(filename, k) &&
        forall j :: 0 <= j < k ==> Taken(st, dir, filename, j)
    ensures r.None? <==> forall k :: 0 <= k <= 999 ==> Taken(st, dir, filename, k)
  {
    match FirstFree(st, dir, filename, 0)
    case None => None
    case Some(k) =>
      assert Candidate(filename, 0) == filename;
      assert !Exists(st, Join(dir, Candidate(filename, k)));
      assert Exists(st, Join(dir, filename)) ==> k != 0;
      Some(Candidate(filename, k))
  }

  /**
   * copymovefile(fullfilename, pathname) with MOVEFILES as a parameter: 0 and no
   * change when every name is taken; otherwise the file is moved or copied to
   * pathname/TargetName, and the result is 1.
   */
  function PlaceSpec(st: FsState, src: string, dir: string, move: bool): (e: Effect<nat>)
    ensures e.result.Ok? ==> e.result.value <= 1
    ensures e.result == Ok(0) <==> TargetName(st, dir, Basename(src)).None?
    ensures e.result.Ok? && e.result.value == 0 ==> e.st == st
    ensures e.result.Err? ==> e.st == st
    ensures e.result.Err? <==>
      (TargetName(st, dir, Basename(src)).Some? &&
       (src !in st.files || !ParentExists(st, Join(dir, TargetName(st, dir, Basename(src)).value))))
    ensures e.result == Ok(1) ==>
      var dst := Join(dir, TargetName(st, dir, Basename(src)).value);
      !Exists(st, dst) && src in st.files && e.st.dirs == st.dirs &&
      e.st.files == (if move then st.files - {src} else st.files) + {dst}
  {
    match TargetName(st, dir, Basename(src))
    case None => Effect(Ok(0), st)
    case Some(name) =>
      var dst := Join(dir, name);
      if src !in st.files then Effect(Err(NoSource(src)), st)
      else if !ParentExists(st, dst) then Effect(Err(NoParent(dst)), st)
      else if move then Effect(Ok(1), FsState(st.dirs, st.files - {src} + {dst}))
      else Effect(Ok(1), FsState(st.dirs, st.files + {dst}))
  }

  /** PlaceSpec once the free name in dir is known to be name. */
  lemma PlaceSpecOnName(st: FsState, src: string, dir: string, move: bool, name: string)
    requires TargetName(st, dir, Basename(src)) == Some(name)
    ensures var dst := Join(dir, name);
      PlaceSpec(st, src, dir, move) ==
        if src !in st.files then Effect(Err(NoSource(src)), st)
        else if !ParentExists(st, dst) then Effect(Err(NoParent(dst)), st)
        else Effect(Ok(1), FsState(st.dirs, (if move then st.files - {src} else st.files) + {dst}))
  {
  }

  /** No candidate name holds a '/', so every target lands directly in dir. */
  lemma CandidateHasNoSlash(filename: string, k: nat)
    requires '/' !in filename
    requires k <= 999
    ensures '/' !in Candidate(filename, k)
  {
  }

  /** The destination of a placement into an existing directory always has its parent. */
  lemma {:induction false} PlaceParentIsDir(st: FsState, dir: string, name: string)
    requires '/' !in name
    ensures ParentExists(st, Join(dir, name)) <==> dir == "" || dir in st.dirs
  {
    JoinSplits(dir, name);
  }

  /** Where the k-th candidate is the first free one, copymovefile puts the file there. */
  lemma PlaceAtFirstFree(st: FsState, src: string, dir: string, move: bool, k: nat)
    requires k <= 999 && forall j :: 0 <= j < k ==> Taken(st, dir, Basename(src), j)
    requires !Taken(st, dir, Basename(src), k)
    requires src in st.files && (dir == "" || dir in st.dirs)
    ensures PlaceSpec(st, src, dir, move) ==
      var dst := Join(dir, Candidate(Basename(src), k));
      Effect(Ok(1), FsState(st.dirs, (if move then st.files - {src} else st.files) + {dst}))
  {
    var name := Candidate(Basename(src), k);
    assert FirstFree(st, dir, Basename(src), 0) == Some(k);
    assert TargetName(st, dir, Basename(src)) == Some(name);
    CandidateHasNoSlash(Basename(src), k);
    PlaceParentIsDir(st, dir, name);
    assert ParentExists(st, Join(dir, name));
  }

  lemma PlaceKeepsWellFormed(st: FsState, src: string, dir: string, move: bool)
    requires WellFormed(st)
    ensures WellFormed(PlaceSpec(st, src, dir, move).st)
  {
  }
}
