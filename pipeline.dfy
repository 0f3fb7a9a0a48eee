/**
 * The specification of processfiles (sortdate.py:91-133): the files are taken
 * in the order given, and the first exception ends the run, leaving the
 * filesystem as the files before it left it.
 */
module Pipeline {
  import opened Results
  import opened FileSystem
  import opened DirName
  import opened Paths

  /**
   * What the metadata of one file yields: the printable value of the
   * 'EXIF DateTimeOriginal' tag, if present, and the place name
   * get_gps_location returns for it (None where it raises).
   */
  datatype Tags = Tags(date: Option<string>, place: Option<string>)

  /** The command-line options the run uses; moveFiles stands for the global MOVEFILES. */
  datatype Options = Options(destDir: string, useGeo: bool, moveFiles: bool)

  /** dircounter and filemoved. */
  datatype Stats = Stats(dirsCreated: nat, filesMoved: nat)

  /** The run so far: still going with its counters, or ended by an exception. */
  datatype Progress =
    | Running(stats: Stats, st: FsState)
    | Aborted(error: Error, st: FsState)

  /** Files absent from the metadata map have no tags at all. */
  function TagsOf(exif: map<string, Tags>, f: string): Tags
  {
    if f in exif then exif[f] else Tags(None, None)
  }

  predicate Dated(exif: map<string, Tags>, f: string)
  {
    TagsOf(exif, f).date.Some?
  }

  /** How many of the files carry a date tag. */
  function DatedCount(exif: map<string, Tags>, files: seq<string>): (n: nat)
    ensures n <= |files|
    ensures n == 0 <==> forall i :: 0 <= i < |files| ==> !Dated(exif, files[i])
  {
    if files == [] then 0
    else DatedCount(exif, files[..|files| - 1]) + (if Dated(exif, files[|files| - 1]) then 1 else 0)
  }

  /**
   * The directory key of f, as Step builds it, on its own for the lemmas:
   * createdirname on its date and, with geocoding on, its place
   * (sortdate.py:104-113); None when either is missing or no key results.
   * StepIsPlaceDated proves that Step places f under this key.
   */
  function KeyOf(f: string, exif: map<string, Tags>, opts: Options): Option<string>
  {
    var tags := TagsOf(exif, f);
    if tags.date.None? || (opts.useGeo && tags.place.None?) then None
    else CreateDirName(tags.date.value, if opts.useGeo then tags.place.value else "", "_", opts.destDir)
  }

  /** One iteration of the loop of processfiles, for the file f. */
  function Step(p: Progress, f: string, exif: map<string, Tags>, opts: Options): Progress
  {
    match p
    case Aborted(_, _) => p
    case Running(stats, st) =>
      if f !in st.files then Aborted(NoSource(f), st)
      else
        var tags := TagsOf(exif, f);
        if tags.date.None? then p
        else if opts.useGeo && tags.place.None? then Aborted(NoLocation(f), st)
        else
          var place := if opts.useGeo then tags.place.value else "";
          match CreateDirName(tags.date.value, place, "_", opts.destDir)
          case None => Aborted(NoDirName(f), st)
          case Some(dirname) => PlaceDated(stats, st, f, dirname, opts.moveFiles)
  }

  /** makedir(dirname), then copymovefile(f, dirname), with the counters they update. */
  function PlaceDated(stats: Stats, st: FsState, f: string, dirname: string, move: bool): Progress
  {
    var made := MakeDirSpec(st, dirname);
    Tally(stats, made, PlaceSpec(made.st, f, dirname, move))
  }

  /** The counters after a makedir with outcome made and a copymovefile with outcome placed. */
  function Tally(stats: Stats, made: Effect<bool>, placed: Effect<nat>): Progress
  {
    if made.result.Err? then Aborted(made.result.error, made.st)
    else if placed.result.Err? then Aborted(placed.result.error, placed.st)
    else Running(Stats(stats.dirsCreated + (if made.result.value then 1 else 0), stats.filesMoved + placed.result.value), placed.st)
  }

  /** The iterations that end before makedir: the exception raised, or the undated file skipped. */
  lemma StepStopsEarly(stats: Stats, st: FsState, f: string, exif: map<string, Tags>, opts: Options)
    ensures f !in st.files ==> Step(Running(stats, st), f, exif, opts) == Aborted(NoSource(f), st)
    ensures f in st.files && !Dated(exif, f) ==> Step(Running(stats, st), f, exif, opts) == Running(stats, st)
    ensures f in st.files && Dated(exif, f) && opts.useGeo && TagsOf(exif, f).place.None? ==>
      Step(Running(stats, st), f, exif, opts) == Aborted(NoLocation(f), st)
    ensures f in st.files && KeyOf(f, exif, opts).None? && !(opts.useGeo && TagsOf(exif, f).place.None?) ==>
      Step(Running(stats, st), f, exif, opts) == (if Dated(exif, f) then Aborted(NoDirName(f), st) else Running(stats, st))
  {
  }

  /** Every iteration that does not stop early is a PlaceDated step on the key of f. */
  lemma StepIsPlaceDated(stats: Stats, st: FsState, f: string, exif: map<string, Tags>, opts: Options)
    ensures f in st.files && KeyOf(f, exif, opts).Some? ==>
      Step(Running(stats, st), f, exif, opts) == PlaceDated(stats, st, f, KeyOf(f, exif, opts).value, opts.moveFiles)
    ensures !(f in st.files && KeyOf(f, exif, opts).Some?) ==>
      Step(Running(stats, st), f, exif, opts).st == st &&
      (Step(Running(stats, st), f, exif, opts).Running? ==> Step(Running(stats, st), f, exif, opts).stats == stats)
  {
  }

  /** An opened file whose key is dirname is placed under dirname. */
  lemma StepOnKey(stats: Stats, st: FsState, f: string, exif: map<string, Tags>, opts: Options, dirname: string)
    requires f in st.files && KeyOf(f, exif, opts) == Some(dirname)
    ensures Step(Running(stats, st), f, exif, opts) == PlaceDated(stats, st, f, dirname, opts.moveFiles)
  {
    StepIsPlaceDated(stats, st, f, exif, opts);
  }

  /** When makedir and copymovefile both succeed, PlaceDated adds what they report to the counters. */
  lemma PlaceDatedOk(stats: Stats, st: FsState, f: string, dirname: string, move: bool,
                     created: bool, made: FsState, moved: nat, placed: FsState)
    requires MakeDirSpec(st, dirname) == Effect(Ok(created), made)
    requires PlaceSpec(made, f, dirname, move) == Effect(Ok(moved), placed)
    ensures PlaceDated(stats, st, f, dirname, move) ==
      Running(Stats(stats.dirsCreated + (if created then 1 else 0), stats.filesMoved + moved), placed)
  {
    assert PlaceDated(stats, st, f, dirname, move) == Tally(stats, Effect(Ok(created), made), Effect(Ok(moved), placed));
  }

  /**
   * makedir and copymovefile into a directory that does not exist yet, where
   * the file's own name is therefore free: one directory and one file counted.
   */
  lemma PlaceIntoNewDir(stats: Stats, st: FsState, f: string, key: string, move: bool)
    requires f in st.files && !Exists(st, key) && ParentExists(st, key)
    requires !Exists(st, Join(key, Basename(f)))
    ensures PlaceDated(stats, st, f, key, move) ==
      Running(Stats(stats.dirsCreated + 1, stats.filesMoved + 1),
              FsState(st.dirs + {key}, (if move then st.files - {f} else st.files) + {Join(key, Basename(f))}))
  {
    var dst := Join(key, Basename(f));
    var made := FsState(st.dirs + {key}, st.files);
    var placed := FsState(made.dirs, (if move then st.files - {f} else st.files) + {dst});
    assert MakeDirSpec(st, key) == Effect(Ok(true), made);
    assert Candidate(Basename(f), 0) == Basename(f);
    assert |dst| > |key|;
    assert !Taken(made, key, Basename(f), 0);
    PlaceAtFirstFree(made, f, key, move, 0);
    assert PlaceSpec(made, f, key, move) == Effect(Ok(1), placed);
    PlaceDatedOk(stats, st, f, key, move, true, made, 1, placed);
  }

  /** A file whose key directory does not exist yet creates it and is placed in it under its own name. */
  lemma StepIntoNewDir(stats: Stats, st: FsState, f: string, exif: map<string, Tags>, opts: Options, key: string)
    requires f in st.files && KeyOf(f, exif, opts) == Some(key)
    requires !Exists(st, key) && ParentExists(st, key)
    requires !Exists(st, Join(key, Basename(f)))
    ensures Step(Running(stats, st), f, exif, opts) ==
      Running(Stats(stats.dirsCreated + 1, stats.filesMoved + 1),
              FsState(st.dirs + {key}, (if opts.moveFiles then st.files - {f} else st.files) + {Join(key, Basename(f))}))
  {
    PlaceIntoNewDir(stats, st, f, key, opts.moveFiles);
    StepOnKey(stats, st, f, exif, opts, key);
  }

  /** processfiles(imglist) from the filesystem st0, as the sequence of its iterations. */
  function Run(st0: FsState, files: seq<string>, exif: map<string, Tags>, opts: Options): Progress
  {
    if files == [] then Running(Stats(0, 0), st0)
    else Step(Run(st0, files[..|files| - 1], exif, opts), files[|files| - 1], exif, opts)
  }

  /** Once an exception has ended the run, later files change nothing. */
  lemma {:induction false} AbortSticks(st0: FsState, files: seq<string>, n: nat, exif: map<string, Tags>, opts: Options)
    requires n <= |files|
    requires Run(st0, files[..n], exif, opts).Aborted?
    ensures Run(st0, files, exif, opts) == Run(st0, files[..n], exif, opts)
    decreases |files| - n
  {
    if n < |files| {
      var m := |files| - 1;
      assert files[..m][..n] == files[..n];
      AbortSticks(st0, files[..m], n, exif, opts);
    } else {
      assert files[..n] == files;
    }
  }

  /** A file without a date tag triggers no makedir and no move or copy. */
  lemma UndatedFileSkipped(stats: Stats, st: FsState, f: string, exif: map<string, Tags>, opts: Options)
    requires f in st.files && !Dated(exif, f)
    ensures Step(Running(stats, st), f, exif, opts) == Running(stats, st)
  {
  }

  /** A file that cannot be opened ends the run. */
  lemma MissingFileAborts(stats: Stats, st: FsState, f: string, exif: map<string, Tags>, opts: Options)
    requires f !in st.files
    ensures Step(Running(stats, st), f, exif, opts) == Aborted(NoSource(f), st)
  {
  }

  /** A run over files none of which is dated leaves the filesystem and the counters alone. */
  lemma {:induction false} UndatedRunChangesNothing(st0: FsState, files: seq<string>, exif: map<string, Tags>, opts: Options)
    requires forall i :: 0 <= i < |files| ==> files[i] in st0.files && !Dated(exif, files[i])
    ensures Run(st0, files, exif, opts) == Running(Stats(0, 0), st0)
  {
    if files != [] {
      UndatedRunChangesNothing(st0, files[..|files| - 1], exif, opts);
    }
  }

  /** dircounter and filemoved never exceed the number of dated files, nor the number of files. */
  lemma {:induction false} CountersBounded(st0: FsState, files: seq<string>, exif: map<string, Tags>, opts: Options)
    ensures Run(st0, files, exif, opts).Running? ==>
      var s := Run(st0, files, exif, opts).stats;
      s.dirsCreated <= DatedCount(exif, files) <= |files| &&
      s.filesMoved <= DatedCount(exif, files)
  {
    if files != [] {
      CountersBounded(st0, files[..|files| - 1], exif, opts);
    }
  }

  /** makedir and copymovefile create at most the directory counted, and remove none. */
  lemma PlaceDatedCountsDirs(stats: Stats, st: FsState, f: string, dirname: string, move: bool, base: set<string>)
    requires base <= st.dirs && stats.dirsCreated == |st.dirs - base|
    ensures base <= PlaceDated(stats, st, f, dirname, move).st.dirs
    ensures PlaceDated(stats, st, f, dirname, move).Running? ==>
      PlaceDated(stats, st, f, dirname, move).stats.dirsCreated == |PlaceDated(stats, st, f, dirname, move).st.dirs - base|
  {
    var made := MakeDirSpec(st, dirname);
    if made.result.Ok? {
      if made.result.value {
        assert made.st.dirs - base == (st.dirs - base) + {dirname};
      } else {
        assert made.st.dirs == st.dirs;
      }
    }
  }

  /** One iteration creates at most the directory it counts, and removes none. */
  lemma StepCountsDirs(p: Progress, f: string, exif: map<string, Tags>, opts: Options, base: set<string>)
    requires base <= p.st.dirs
    requires p.Running? ==> p.stats.dirsCreated == |p.st.dirs - base|
    ensures base <= Step(p, f, exif, opts).st.dirs
    ensures Step(p, f, exif, opts).Running? ==>
      Step(p, f, exif, opts).stats.dirsCreated == |Step(p, f, exif, opts).st.dirs - base|
  {
    if p.Running? {
      StepIsPlaceDated(p.stats, p.st, f, exif, opts);
      if f in p.st.files && KeyOf(f, exif, opts).Some? {
        PlaceDatedCountsDirs(p.stats, p.st, f, KeyOf(f, exif, opts).value, opts.moveFiles, base);
      }
    }
  }

  /**
   * dircounter is exactly the number of directories the run created, and no
   * directory ever disappears, not even when the run is ended by an exception.
   */
  lemma {:induction false} DirsCreatedCounted(st0: FsState, files: seq<string>, exif: map<string, Tags>, opts: Options)
    ensures st0.dirs <= Run(st0, files, exif, opts).st.dirs
    ensures Run(st0, files, exif, opts).Running? ==>
      Run(st0, files, exif, opts).stats.dirsCreated == |Run(st0, files, exif, opts).st.dirs - st0.dirs|
  {
    if files != [] {
      DirsCreatedCounted(st0, files[..|files| - 1], exif, opts);
      StepCountsDirs(Run(st0, files[..|files| - 1], exif, opts), files[|files| - 1], exif, opts, st0.dirs);
    } else {
      assert st0.dirs - st0.dirs == {};
    }
  }

  /** In copy mode makedir and copymovefile add exactly the files they count. */
  lemma PlaceDatedCountsCopies(stats: Stats, st: FsState, f: string, dirname: string, base: set<string>)
    requires base <= st.files && stats.filesMoved == |st.files - base|
    ensures base <= PlaceDated(stats, st, f, dirname, false).st.files
    ensures PlaceDated(stats, st, f, dirname, false).Running? ==>
      PlaceDated(stats, st, f, dirname, false).stats.filesMoved == |PlaceDated(stats, st, f, dirname, false).st.files - base|
  {
    var made := MakeDirSpec(st, dirname);
    if made.result.Ok? {
      var placed := PlaceSpec(made.st, f, dirname, false);
      if placed.result == Ok(1) {
        var dst := Join(dirname, TargetName(made.st, dirname, Basename(f)).value);
        assert placed.st.files - base == (st.files - base) + {dst};
      }
    }
  }

  /** In copy mode filemoved is exactly the number of new files, and no file disappears. */
  lemma {:induction false} CopiesCounted(st0: FsState, files: seq<string>, exif: map<string, Tags>, opts: Options)
    requires !opts.moveFiles
    ensures st0.files <= Run(st0, files, exif, opts).st.files
    ensures Run(st0, files, exif, opts).Running? ==>
      Run(st0, files, exif, opts).stats.filesMoved == |Run(st0, files, exif, opts).st.files - st0.files|
  {
    if files != [] {
      var prev := Run(st0, files[..|files| - 1], exif, opts);
      var f := files[|files| - 1];
      CopiesCounted(st0, files[..|files| - 1], exif, opts);
      if prev.Running? {
        StepIsPlaceDated(prev.stats, prev.st, f, exif, opts);
        if f in prev.st.files && KeyOf(f, exif, opts).Some? {
          PlaceDatedCountsCopies(prev.stats, prev.st, f, KeyOf(f, exif, opts).value, st0.files);
        }
      }
    } else {
      assert st0.files - st0.files == {};
    }
  }

  /** In move mode the only files that disappear are files of the list. */
  lemma {:induction false} OnlyListedFilesLeave(st0: FsState, files: seq<string>, exif: map<string, Tags>, opts: Options)
    ensures forall p :: p in st0.files && p !in Run(st0, files, exif, opts).st.files ==> p in files
  {
    if files != [] {
      OnlyListedFilesLeave(st0, files[..|files| - 1], exif, opts);
      assert forall p :: p in files[..|files| - 1] ==> p in files;
    }
  }

  /** No path ever becomes both a file and a directory. */
  lemma {:induction false} RunKeepsWellFormed(st0: FsState, files: seq<string>, exif: map<string, Tags>, opts: Options)
    requires WellFormed(st0)
    ensures WellFormed(Run(st0, files, exif, opts).st)
  {
    if files != [] {
      var prev := Run(st0, files[..|files| - 1], exif, opts);
      var f := files[|files| - 1];
      RunKeepsWellFormed(st0, files[..|files| - 1], exif, opts);
      if prev.Running? {
        StepIsPlaceDated(prev.stats, prev.st, f, exif, opts);
        if f in prev.st.files && KeyOf(f, exif, opts).Some? {
          var key := KeyOf(f, exif, opts).value;
          MakeDirKeepsWellFormed(prev.st, key);
          PlaceKeepsWellFormed(MakeDirSpec(prev.st, key).st, f, key, opts.moveFiles);
        }
      }
    }
  }
}
