/**
 * The script's own functions as imperative code over the filesystem they
 * change: makedir, copymovefile and processfiles, each proved to do what its
 * specification in FileSystem or Pipeline says.
 */
module SortDate {
  import opened Results
  import opened Paths
  import opened DirName
  import opened FileSystem
  import opened Pipeline

  /** The filesystem the script works on, updated in place by os.mkdir, shutil.move and shutil.copy2. */
  class FileTree {
    var dirs: set<string>
    var files: set<string>

    function State(): FsState
      reads this
    {
      FsState(dirs, files)
    }

    constructor (st: FsState)
      ensures State() == st
    {
      dirs := st.dirs;
      files := st.files;
    }
  }

  /** makedir(dirname) (sortdate.py:81-88). */
  method MakeDir(fs: FileTree, dirname: string) returns (created: Result<bool, Error>)
    modifies fs
    ensures Effect(created, fs.State()) == MakeDirSpec(old(fs.State()), dirname)
  {
    if Exists(fs.State(), dirname) && IsDir(fs.State(), dirname) {
      created := Ok(false);
    } else if Exists(fs.State(), dirname) {
      created := Err(FileExists(dirname));
    } else if !ParentExists(fs.State(), dirname) {
      created := Err(NoParent(dirname));
    } else {
      fs.dirs := fs.dirs + {dirname};
      created := Ok(true);
    }
  }

  /** copymovefile(fullfilename, pathname) (sortdate.py:136-158), MOVEFILES given as moveFiles. */
  method CopyMoveFile(fs: FileTree, fullfilename: string, pathname: string, moveFiles: bool)
    returns (moved: Result<nat, Error>)
    modifies fs
    ensures Effect(moved, fs.State()) == PlaceSpec(old(fs.State()), fullfilename, pathname, moveFiles)
  {
    var st := fs.State();
    var counter := 0;
    var filename := Basename(fullfilename);
    var newfilename := filename;
    while Exists(st, Join(pathname, newfilename)) && counter <= 999
      invariant counter <= 1000
      invariant newfilename == Candidate(filename, counter)
      invariant FirstFree(st, pathname, filename, counter) == FirstFree(st, pathname, filename, 0)
      decreases 1000 - counter
    {
      counter := counter + 1;
      newfilename := Format03(counter) + "_" + filename;
    }
    if counter <= 999 {
      assert FirstFree(st, pathname, filename, 0) == Some(counter);
      assert TargetName(st, pathname, filename) == Some(newfilename);
      PlaceSpecOnName(st, fullfilename, pathname, moveFiles, newfilename);
      var dst := Join(pathname, newfilename);
      if fullfilename !in fs.files {
        moved := Err(NoSource(fullfilename));
      } else if !ParentExists(fs.State(), dst) {
        moved := Err(NoParent(dst));
      } else if moveFiles {
        fs.files := fs.files - {fullfilename} + {dst};
        moved := Ok(1);
      } else {
        fs.files := fs.files + {dst};
        moved := Ok(1);
      }
    } else {
      assert FirstFree(st, pathname, filename, 0) == None;
      assert TargetName(st, pathname, filename) == None;
      moved := Ok(0);
    }
  }

  /**
   * The dated part of one pass (sortdate.py:114-118): makedir(dirname), the
   * dircounter update, copymovefile(filename, dirname) and the filemoved
   * update, starting from the counters in stats.
   */
  method MakeDirAndPlace(fs: FileTree, filename: string, dirname: string, moveFiles: bool, stats: Stats)
    returns (r: Result<Stats, Error>)
    modifies fs
    ensures fs.State() == PlaceDated(stats, old(fs.State()), filename, dirname, moveFiles).st
    ensures r.Ok? <==> PlaceDated(stats, old(fs.State()), filename, dirname, moveFiles).Running?
    ensures r.Ok? ==> r.value == PlaceDated(stats, old(fs.State()), filename, dirname, moveFiles).stats
    ensures r.Err? ==> r.error == PlaceDated(stats, old(fs.State()), filename, dirname, moveFiles).error
  {
    ghost var before := fs.State();
    var dircounter := stats.dirsCreated;
    var created := MakeDir(fs, dirname);
    if created.Err? {
      return Err(created.error);
    }
    ghost var made := fs.State();
    if created.value {
      dircounter := dircounter + 1;
    }
    var moved := CopyMoveFile(fs, filename, dirname, moveFiles);
    if moved.Err? {
      return Err(moved.error);
    }
    PlaceDatedOk(stats, before, filename, dirname, moveFiles, created.value, made, moved.value, fs.State());
    r := Ok(Stats(dircounter, stats.filesMoved + moved.value));
  }

  /**
   * One pass of the loop of processfiles (sortdate.py:97-120) for filename,
   * with the counters so far in stats: the new counters, or the exception
   * that ends the run, and the filesystem after it.
   */
  method ProcessFile(fs: FileTree, filename: string, exif: map<string, Tags>, opts: Options, stats: Stats)
    returns (r: Result<Stats, Error>)
    modifies fs
    ensures fs.State() == Step(Running(stats, old(fs.State())), filename, exif, opts).st
    ensures r.Ok? <==> Step(Running(stats, old(fs.State())), filename, exif, opts).Running?
    ensures r.Ok? ==> r.value == Step(Running(stats, old(fs.State())), filename, exif, opts).stats
    ensures r.Err? ==> r.error == Step(Running(stats, old(fs.State())), filename, exif, opts).error
  {
    ghost var before := fs.State();
    if filename !in fs.files {
      StepStopsEarly(stats, before, filename, exif, opts);
      return Err(NoSource(filename));
    }
    var tags := TagsOf(exif, filename);
    if tags.date.None? {
      StepStopsEarly(stats, before, filename, exif, opts);
      return Ok(stats);
    }
    var stringgps := "";
    if opts.useGeo {
      if tags.place.None? {
        StepStopsEarly(stats, before, filename, exif, opts);
        return Err(NoLocation(filename));
      }
      stringgps := tags.place.value;
    }
    var dirname := CreateDirName(tags.date.value, stringgps, "_", opts.destDir);
    assert KeyOf(filename, exif, opts) == dirname;
    if dirname.None? {
      StepStopsEarly(stats, before, filename, exif, opts);
      return Err(NoDirName(filename));
    }
    StepIsPlaceDated(stats, before, filename, exif, opts);
    r := MakeDirAndPlace(fs, filename, dirname.value, opts.moveFiles, stats);
  }

  /**
   * processfiles(imglist, options) (sortdate.py:91-133), with the metadata of
   * each file given by exif. An exception ends it with the filesystem as far
   * as it got; otherwise it yields dircounter and filemoved.
   */
  method ProcessFiles(fs: FileTree, imglist: seq<string>, exif: map<string, Tags>, opts: Options)
    returns (r: Result<Stats, Error>)
    modifies fs
    ensures fs.State() == Run(old(fs.State()), imglist, exif, opts).st
    ensures r.Ok? <==> Run(old(fs.State()), imglist, exif, opts).Running?
    ensures r.Ok? ==> r.value == Run(old(fs.State()), imglist, exif, opts).stats
    ensures r.Err? ==> r.error == Run(old(fs.State()), imglist, exif, opts).error
  {
    ghost var st0 := fs.State();
    var dircounter := 0;
    var filemoved := 0;
    for i := 0 to |imglist|
      invariant Run(st0, imglist[..i], exif, opts) == Running(Stats(dircounter, filemoved), fs.State())
    {
      assert imglist[..i + 1][..i] == imglist[..i];
      var done := ProcessFile(fs, imglist[i], exif, opts, Stats(dircounter, filemoved));
      if done.Err? {
        r := Err(done.error);
        AbortSticks(st0, imglist, i + 1, exif, opts);
        return;
      }
      dircounter := done.value.dirsCreated;
      filemoved := done.value.filesMoved;
    }
    assert imglist[..|imglist|] == imglist;
    r := Ok(Stats(dircounter, filemoved));
  }
}
