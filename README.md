# sortdate in Dafny

A model of the classification-and-placement pipeline of `sortdate.py`, a
script that sorts photographs into per-day directories. For each file in a
list, in the order given, the script:

1. reads its EXIF tags and skips it when the tag `EXIF DateTimeOriginal` is missing;
2. builds the key `destdir/YYYYMMDD_place` from the date, with the place
   empty unless reverse geocoding is on (`createdirname`);
3. creates that directory unless it already exists (`makedir`), counting creations in `dircounter`;
4. moves or copies the file into it under the first free name among
   `name`, `001_name` … `999_name`, and gives up on the file when all
   1000 names are taken (`copymovefile`), counting placements in `filemoved`.

The model has seven modules:

- `Results` holds `Option` and `Result`.
- `Paths` splits paths at their last `/`, as `str.rpartition('/')` does.
- `DirName` models `createdirname`, including Python's clamped slicing.
- `FileSystem` models the filesystem and specifies `makedir` and `copymovefile` over it.
  - The filesystem is the value `FsState(dirs, files)`: two sets of path strings.
  - `MakeDirSpec` specifies `makedir`.
  - `FirstFree`, `TargetName` and `PlaceSpec` specify `copymovefile`.
  - `Error` lists the exceptions that can end a run.
- `Pipeline` specifies `processfiles`.
  - `Step` is one loop iteration. `PlaceDated` is its makedir-then-copymovefile part. `KeyOf` states on its own the key that `Step` builds, and `StepIsPlaceDated` proves that `Step` places the file under that key.
  - `Run` folds `Step` over the file list.
  - The lemmas bound the counters and say what a run changes.
- `SortDate` holds the script's functions as imperative code.
  - `FileTree` is a class whose fields `dirs` and `files` are updated in place.
  - `MakeDir`, `CopyMoveFile` and `ProcessFiles` are methods with `modifies fs`. The body of the loop of `processfiles` is the method `ProcessFile`, and its makedir-then-copymovefile part is `MakeDirAndPlace`.
  - Each method is proved to produce the result and the new state that its specification function gives. `CopyMoveFile` keeps the script's counter loop.
- `Scenarios` works through concrete runs: the `a.jpg`/`b.jpg` sort, and the `IMG_1.jpg` collisions giving `001_IMG_1.jpg` and then `002_IMG_1.jpg`.

Inputs the script gets from outside become parameters:
- The EXIF data is a map from file name to `Tags(date, place)`.
  - `date` is the printable value of `EXIF DateTimeOriginal`, or `None` when the tag is missing.
  - `place` is what `get_gps_location` returns for the file, or `None` where it raises.
  - A file that is not in the map has no tags.
- The global `MOVEFILES` is the `moveFiles` field of `Options`, next to `destDir` and `useGeo`.

How the code treats failures, and what the model returns:

- **Errors end the run.** The `try`/`finally: pass` around each file's tags catches nothing (sortdate.py:103-120).
  - So any exception ends `processfiles`, and files already moved stay moved. Such an exception can come from `open`, `get_gps_location`, `makedir`, `os.mkdir`, `shutil.move` or `shutil.copy2`.
  - The model returns `Err` in that case. The filesystem is left as far as the run got.
- **An empty date tag ends the run.** `createdirname` returns `None`, and `makedir(None)` raises. The model reports this as `NoDirName`, not as a skipped file.
- **A failed place lookup ends the run.** When geocoding is on and the place lookup fails, the run ends (`NoLocation`). It does not fall back to an empty place.
- **The returned counters.** `processfiles` returns only `dircounter`. `ProcessFiles` returns both counters, because `filemoved` is the other figure the script reports.

## Model

| member | source | states |
|---|---|---|
| `Paths.LastSlash` | sortdate.py:140 | finds the last `/` of the path: the position holds `/` and no later one does; none exactly when the path has no `/` |
| `Paths.Basename` | sortdate.py:140 | the base name is the longest suffix without `/`: it is all of the path when there is no `/`, otherwise it follows a `/` |
| `Paths.JoinSplits` | sortdate.py:140-152 | `pathname + '/' + name` with a `/`-free name splits back into `pathname` and `name` at its last `/` |
| `DirName.Slice` | sortdate.py:77 | Python's `s[i:j]` with both bounds clamped: the true slice in range, empty past the end, the tail when only `j` is past the end |
| `DirName.DateKey` | sortdate.py:77 | the date part is `date[0:4] + date[5:7] + date[8:10]` for a date of at least ten characters, and is never more than eight characters; it is exactly eight only then |
| `DirName.CreateDirName` | sortdate.py:74-78 | no key exactly when the date is empty; otherwise the key starts with `destdir/`, ends with the separator followed by the place (the separator kept when the place is empty), and has the date part in between; for a full date it is `destdir/YYYYMMDD` + separator + place |
| `DirName.CreateDirNameInjective` | sortdate.py:77 | for a fixed date, root and separator, equal keys mean equal places, so different places give different keys |
| `FileSystem.MakeDirSpec` | sortdate.py:81-88 | succeeds exactly when the path is a directory or is absent with an existing parent; on success the path is a directory, the result is true exactly when it was not one before, and only that directory is added; on failure nothing changes and the error is `FileExists` when the path is a file, `NoParent` otherwise |
| `FileSystem.MakeDirIdempotent` | sortdate.py:81-88 | a second `makedir` of the same path returns false and leaves the filesystem unchanged |
| `FileSystem.MakeDirKeepsWellFormed` | sortdate.py:81-88 | `makedir` never makes a path both a file and a directory |
| `FileSystem.MakeDirInCurrentDir` | sortdate.py:81-88 | on a real filesystem `makedir('.')` returns false and changes nothing, and a missing `./name` is created on its first `makedir`, which returns true |
| `FileSystem.Decimal` | sortdate.py:148 | `str(n)` has one, two or three digits exactly for n below 10, 100, 1000 |
| `FileSystem.DecimalBelow1000` | sortdate.py:148 | `str(n)` for n below 1000 is its hundreds, tens and units digits, leading zeros dropped |
| `FileSystem.Format03` | sortdate.py:148 | `'%03d' % n` has at least three characters and, below 1000, is exactly the three digits of n |
| `FileSystem.Format03Injective` | sortdate.py:148 | different counters below 1000 get different `%03d` prefixes |
| `FileSystem.CandidatesDistinct` | sortdate.py:141-148 | the names `filename`, `001_filename` … `999_filename` are pairwise different |
| `FileSystem.CandidatePathsCount` | sortdate.py:144-149 | the first n candidate paths (n up to 1000) are n different paths |
| `FileSystem.ExhaustionNeedsThousandPaths` | sortdate.py:144-150 | `copymovefile` gives up only when at least 1000 different paths exist |
| `FileSystem.FirstFree` | sortdate.py:144-149 | the counter loop stops at the least counter from 0 to 999 whose name is free, with every earlier name taken; it stops with none exactly when all of them are taken |
| `FileSystem.TargetName` | sortdate.py:141-150 | the target is `filename` when `pathname/filename` is free; otherwise it is `%03d_filename` for the least free k in 1..999, all earlier names being taken; the chosen path never existed before; no target exactly when all 1000 names are taken |
| `FileSystem.PlaceSpec` | sortdate.py:136-158 | the result is 0 or 1; 0 exactly when every name is taken, and then nothing changes; on an error nothing changes, and an error happens exactly when a name is free but the source is missing or the directory is absent; on 1 the destination did not exist, directories are unchanged, the destination is added, and the source is removed in move mode and kept in copy mode; no other path changes |
| `FileSystem.CandidateHasNoSlash` | sortdate.py:148 | a candidate name of a `/`-free base name holds no `/` |
| `FileSystem.PlaceParentIsDir` | sortdate.py:152-154 | the directory `shutil.move`/`shutil.copy2` write into is `pathname` itself, so it exists exactly when `pathname` is a directory or the root |
| `FileSystem.PlaceAtFirstFree` | sortdate.py:144-155 | when the k-th name is the first free one and the source and directory exist, the file is moved or copied to exactly that name and the result is 1 |
| `FileSystem.PlaceKeepsWellFormed` | sortdate.py:151-154 | moving or copying never makes a path both a file and a directory |
| `Pipeline.DatedCount` | sortdate.py:104 | the number of dated files is at most the number of files, and zero exactly when none is dated |
| `Pipeline.StepIsPlaceDated` | sortdate.py:99-118 | an iteration that opens the file and finds a key runs `makedir` and then `copymovefile` on that key; any other iteration changes neither the filesystem nor the counters |
| `Pipeline.StepStopsEarly` | sortdate.py:99-113 | an iteration whose file cannot be opened, or whose place lookup fails, ends the run with the state unchanged; one without a date tag changes nothing; one whose date tag gives no key ends the run with `NoDirName` |
| `Pipeline.StepOnKey` | sortdate.py:104-118 | an iteration whose file opens and yields the key `dirname` is `makedir(dirname)` followed by `copymovefile` into `dirname` |
| `Pipeline.PlaceDatedOk` | sortdate.py:114-118 | when `makedir` and `copymovefile` both succeed, `dircounter` grows by one exactly when a directory was created, `filemoved` grows by the moved count, and the filesystem is the one after the move or copy |
| `Pipeline.PlaceIntoNewDir` | sortdate.py:114-118 | placing a file under a key that does not exist yet, in an existing parent, creates the key, puts the file there under its own name, and counts one directory and one file |
| `Pipeline.StepIntoNewDir` | sortdate.py:99-118 | the same for a whole iteration whose file yields that key |
| `Pipeline.AbortSticks` | sortdate.py:96-120 | once an exception has ended the run, the remaining files change nothing |
| `Pipeline.UndatedFileSkipped` | sortdate.py:101-104 | a file without a date tag causes no `makedir` and no move or copy, and leaves the counters alone |
| `Pipeline.MissingFileAborts` | sortdate.py:99-100 | a listed file that cannot be opened ends the run |
| `Pipeline.UndatedRunChangesNothing` | sortdate.py:93-120 | a run over existing files none of which is dated returns zero counters and changes nothing |
| `Pipeline.CountersBounded` | sortdate.py:93-118 | `dircounter` and `filemoved` are each at most the number of dated files, which is at most `len(imglist)` |
| `Pipeline.PlaceDatedCountsDirs` | sortdate.py:114-116 | a `makedir` that returns true adds exactly the one directory it counts, and nothing removes a directory |
| `Pipeline.StepCountsDirs` | sortdate.py:96-118 | one iteration keeps `dircounter` equal to the number of directories created so far |
| `Pipeline.DirsCreatedCounted` | sortdate.py:93-133 | the returned `dircounter` is exactly the number of directories that did not exist before the run, and no directory disappears, even when an exception ends the run |
| `Pipeline.PlaceDatedCountsCopies` | sortdate.py:117-118 | in copy mode one placement adds exactly the file it counts |
| `Pipeline.CopiesCounted` | sortdate.py:94-118 | in copy mode `filemoved` is exactly the number of new files, and no file disappears |
| `Pipeline.OnlyListedFilesLeave` | sortdate.py:96-118 | the only files that disappear in a run are files of the list |
| `Pipeline.RunKeepsWellFormed` | sortdate.py:91-133 | a run never makes a path both a file and a directory |
| `SortDate.MakeDir` | sortdate.py:81-88 | the result and the new filesystem are those of `MakeDirSpec` on the old filesystem |
| `SortDate.CopyMoveFile` | sortdate.py:136-158 | the counter loop, the move or copy and the result give the result and the new filesystem of `PlaceSpec` on the old filesystem |
| `SortDate.MakeDirAndPlace` | sortdate.py:114-118 | the new filesystem, the counters and the error are those of `PlaceDated` on the old filesystem and counters |
| `SortDate.ProcessFile` | sortdate.py:97-120 | the new filesystem, the counters and the error are those of one `Step` from the old filesystem and counters |
| `SortDate.ProcessFiles` | sortdate.py:91-133 | the new filesystem is that of `Run`; the result is the two counters when the run completes, and otherwise the exception that ended it |
| `Scenarios.DateKeyExample` | sortdate.py:77 | the date `2023:05:10 12:00:00` gives the date part `20230510` |
| `Scenarios.DirNameExample` | sortdate.py:74-78 | with no place the key is `/out/20230510_` (the separator stays), with place `Rome` it is `/out/20230510_Rome`, and an empty date gives no key |
| `Scenarios.Format03Examples` | sortdate.py:148 | the prefixes `001`, `042`, `999`, and `1000` for the counter value the loop computes but never uses |
| `Scenarios.ImgCandidates` | sortdate.py:141-148 | the first three names tried for `IMG_1.jpg` in `d` are `d/IMG_1.jpg`, `d/001_IMG_1.jpg` and `d/002_IMG_1.jpg` |
| `Scenarios.PlaceSecondImg` | sortdate.py:144-155 | with `d/IMG_1.jpg` present, another `IMG_1.jpg` is moved to `d/001_IMG_1.jpg` |
| `Scenarios.PlaceThirdImg` | sortdate.py:144-155 | with `d/IMG_1.jpg` and `d/001_IMG_1.jpg` present, another `IMG_1.jpg` is moved to `d/002_IMG_1.jpg` |
| `Scenarios.OutKey` | sortdate.py:77 | the key `/out/20230510_` lies directly in `/out` |
| `Scenarios.OutNames` | sortdate.py:140-148 | `src/a.jpg` has the base name `a.jpg`, and its first two names in the key are `a.jpg` and `001_a.jpg` |
| `Scenarios.EndToEndExample` | sortdate.py:91-133 | moving `src/a.jpg` (dated 2023:05:10) and `src/b.jpg` (undated) into `/out` creates `/out/20230510_`, moves `a.jpg` into it, leaves `b.jpg`, and counts one directory and one file |
| `Scenarios.DatedFileIntoNewKey` | sortdate.py:99-118 | the iteration for `src/a.jpg` dated 2023:05:10 creates `/out/20230510_`, moves `a.jpg` into it under its own name, and counts one directory and one file |
| `Scenarios.EndToEndCollisionExample` | sortdate.py:91-133 | with `/out/20230510_/a.jpg` already present, a new `a.jpg` of that date goes to `/out/20230510_/001_a.jpg`, and no directory is counted |

## Left out

- `get_gps_location` (sortdate.py:34-71) is not modelled. It uses floating point, `eval` on tag text and the Nominatim network service. Its result is an input string per file. Its failure is the `NoLocation` error.
- `exifread.process_file` and the file's contents (sortdate.py:99-100) are not modelled. Metadata is an input map. `open` is modelled only as "the path must be an existing file".
- `main` (sortdate.py:161-221) is not modelled: option parsing, `os.chdir`, and the `os.listdir` enumeration of files. The file list and the options are inputs. Because of that `os.chdir`, a relative destination directory is resolved twice; the model does not capture this.
- `verboseprint`, every `print`, the `datefound` flag and the final `len(imglist)` figure are not modelled. They only produce log output.
- Only the failures listed in `Error` are modelled. Permission errors, a full disk and cross-device moves are not, and neither is the atomicity of `shutil.move`: a move or a copy is one set update.
- `shutil.move` of a directory tree is not modelled. A source that is not a file is reported as `NoSource`, although `shutil.move` would move a directory.
- Paths are compared as plain strings. `a/./b`, `a//b` and trailing slashes are not identified with their normal forms. The parent of a path is the text before its last `/`. A path without `/` lives in the current directory. A state stands for a real filesystem when it is `WellFormed`: the current directory `.` and the root `/` are directories in it, so `makedir('.')` reports false and a key `./name` built from the default destdir has an existing parent. A state that is not `WellFormed` may leave `.` or `/` out, and `MakeDirSpec` then treats them as absent paths.
- The filesystem does not require a file's parent directory to exist. The end-to-end scenarios therefore list among their requirements that the destination paths are absent.
- `processfiles` and the other functions run strictly in sequence; concurrency is not modelled.
