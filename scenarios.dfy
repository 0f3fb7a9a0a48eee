/** Concrete runs: the naming scheme, collisions, and one whole sorting run. */
module Scenarios {
  import opened Results
  import opened Paths
  import opened DirName
  import opened FileSystem
  import opened Pipeline

  /** A capture date in the 'YYYY:MM:DD HH:MM:SS' form gives the date part 20230510. */
  lemma DateKeyExample()
    ensures DateKey("2023:05:10 12:00:00") == "20230510"
  {
    var d := "2023:05:10 12:00:00";
    assert d[..4] == "2023";
    assert d[5..7] == "05";
    assert d[8..10] == "10";
  }

  /** No place still leaves the '_'; a place follows it; an empty date gives no key. */
  lemma DirNameExample()
    ensures CreateDirName("2023:05:10 12:00:00", "", "_", "/out") == Some("/out/20230510_")
    ensures CreateDirName("2023:05:10 12:00:00", "Rome", "_", "/out") == Some("/out/20230510_Rome")
    ensures CreateDirName("", "Rome", "_", "/out") == None
  {
    DateKeyExample();
    assert "/out" + "/" + "20230510" + "_" + "" == "/out/20230510_";
    assert "/out" + "/" + "20230510" + "_" + "Rome" == "/out/20230510_Rome";
  }

  /** The prefixes tried: 001 up to 999, then the unused 1000. */
  lemma Format03Examples()
    ensures Format03(1) == "001" && Format03(42) == "042" && Format03(999) == "999"
    ensures Format03(1000) == "1000"
  {
    DecimalBelow1000(100);
  }

  /** The first three names tried for IMG_1.jpg in d. */
  lemma ImgCandidates()
    ensures Join("d", Candidate("IMG_1.jpg", 0)) == "d/IMG_1.jpg"
    ensures Join("d", Candidate("IMG_1.jpg", 1)) == "d/001_IMG_1.jpg"
    ensures Join("d", Candidate("IMG_1.jpg", 2)) == "d/002_IMG_1.jpg"
    ensures "d/001_IMG_1.jpg" != "d/002_IMG_1.jpg"
  {
    FirstRetryName();
    SecondRetryName();
    assert "d/002_IMG_1.jpg"[4] != "d/001_IMG_1.jpg"[4];
  }

  /** The first retry for IMG_1.jpg is 001_IMG_1.jpg. */
  lemma FirstRetryName()
    ensures Candidate("IMG_1.jpg", 1) == "001_IMG_1.jpg"
  {
    assert Format03(1) == "001";
  }

  /** The second retry for IMG_1.jpg is 002_IMG_1.jpg. */
  lemma SecondRetryName()
    ensures Candidate("IMG_1.jpg", 2) == "002_IMG_1.jpg"
  {
    assert Format03(2) == "002";
  }

  /** Into d holding IMG_1.jpg, a further IMG_1.jpg goes to 001_IMG_1.jpg. */
  lemma PlaceSecondImg(st: FsState, src: string)
    requires Basename(src) == "IMG_1.jpg"
    requires "d" in st.dirs && "d/IMG_1.jpg" in st.files && src in st.files
    requires !Exists(st, "d/001_IMG_1.jpg")
    ensures PlaceSpec(st, src, "d", true) == Effect(Ok(1), FsState(st.dirs, st.files - {src} + {"d/001_IMG_1.jpg"}))
  {
    ImgCandidates();
    assert Taken(st, "d", "IMG_1.jpg", 0);
    PlaceAtFirstFree(st, src, "d", true, 1);
  }

  /** Into d holding IMG_1.jpg and 001_IMG_1.jpg, a further IMG_1.jpg goes to 002_IMG_1.jpg. */
  lemma PlaceThirdImg(st: FsState, src: string)
    requires Basename(src) == "IMG_1.jpg"
    requires "d" in st.dirs && "d/IMG_1.jpg" in st.files && "d/001_IMG_1.jpg" in st.files && src in st.files
    requires !Exists(st, "d/002_IMG_1.jpg")
    ensures PlaceSpec(st, src, "d", true) == Effect(Ok(1), FsState(st.dirs, st.files - {src} + {"d/002_IMG_1.jpg"}))
  {
    ImgCandidates();
    var name := Basename(src);
    assert Taken(st, "d", name, 0) && Taken(st, "d", name, 1);
    forall j | 0 <= j < 2
      ensures Taken(st, "d", name, j)
    {
    }
    assert !Taken(st, "d", name, 2);
    PlaceAtFirstFree(st, src, "d", true, 2);
    assert Join("d", Candidate(name, 2)) == "d/002_IMG_1.jpg";
  }

  /** The key directory of the end-to-end examples lies in /out. */
  lemma OutKey()
    ensures Join("/out", "20230510_") == "/out/20230510_"
    ensures LastSlash("/out/20230510_") == Some(4) && "/out/20230510_"[..4] == "/out"
  {
    JoinSplits("/out", "20230510_");
  }

  /** The source a.jpg, its two candidate places, and the other source. */
  lemma OutNames()
    ensures Basename("src/a.jpg") == "a.jpg"
    ensures Join("/out/20230510_", Candidate("a.jpg", 0)) == "/out/20230510_/a.jpg"
    ensures Join("/out/20230510_", Candidate("a.jpg", 1)) == "/out/20230510_/001_a.jpg"
    ensures "src/a.jpg" != "src/b.jpg"
  {
    SourceBasename();
    RetryNameOfA();
    assert "src/a.jpg"[4] != "src/b.jpg"[4];
  }

  /** The base name of src/a.jpg is a.jpg. */
  lemma SourceBasename()
    ensures Basename("src/a.jpg") == "a.jpg"
  {
    JoinSplits("src", "a.jpg");
    assert Join("src", "a.jpg") == "src/a.jpg";
  }

  /** The first retry for a.jpg is 001_a.jpg. */
  lemma RetryNameOfA()
    ensures Candidate("a.jpg", 1) == "001_a.jpg"
  {
    assert Format03(1) == "001";
  }

  /**
   * src holds a.jpg, dated 2023:05:10 12:00:00, and b.jpg, undated; moving into
   * /out without place names creates /out/20230510_, moves a.jpg there, leaves
   * b.jpg, and counts one directory and one file.
   */
  lemma EndToEndExample(st0: FsState)
    requires "/out" in st0.dirs && "src/a.jpg" in st0.files && "src/b.jpg" in st0.files
    requires !Exists(st0, "/out/20230510_") && !Exists(st0, "/out/20230510_/a.jpg")
    ensures
      var exif := map["src/a.jpg" := Tags(Some("2023:05:10 12:00:00"), None), "src/b.jpg" := Tags(None, None)];
      Run(st0, ["src/a.jpg", "src/b.jpg"], exif, Options("/out", false, true)) ==
        Running(Stats(1, 1), FsState(st0.dirs + {"/out/20230510_"},
                                     st0.files - {"src/a.jpg"} + {"/out/20230510_/a.jpg"}))
  {
    var exif := map["src/a.jpg" := Tags(Some("2023:05:10 12:00:00"), None), "src/b.jpg" := Tags(None, None)];
    var opts := Options("/out", false, true);
    var files := ["src/a.jpg", "src/b.jpg"];
    var st2 := FsState(st0.dirs + {"/out/20230510_"}, st0.files - {"src/a.jpg"} + {"/out/20230510_/a.jpg"});
    assert files[..1] == ["src/a.jpg"] && files[..1][..0] == [];
    DatedFileIntoNewKey(st0, exif);
    assert Run(st0, files[..1][..0], exif, opts) == Running(Stats(0, 0), st0);
    assert Run(st0, files[..1], exif, opts) == Running(Stats(1, 1), st2);
    UndatedFileSkipped(Stats(1, 1), st2, "src/b.jpg", exif, opts);
  }

  /** The iteration for src/a.jpg, dated 2023:05:10 12:00:00: /out/20230510_ is created and a.jpg moved into it. */
  lemma DatedFileIntoNewKey(st0: FsState, exif: map<string, Tags>)
    requires "/out" in st0.dirs && "src/a.jpg" in st0.files
    requires !Exists(st0, "/out/20230510_") && !Exists(st0, "/out/20230510_/a.jpg")
    requires "src/a.jpg" in exif && exif["src/a.jpg"] == Tags(Some("2023:05:10 12:00:00"), None)
    ensures Step(Running(Stats(0, 0), st0), "src/a.jpg", exif, Options("/out", false, true)) ==
      Running(Stats(1, 1), FsState(st0.dirs + {"/out/20230510_"}, st0.files - {"src/a.jpg"} + {"/out/20230510_/a.jpg"}))
  {
    OutKey();
    OutNames();
    DirNameExample();
    var opts := Options("/out", false, true);
    var key := "/out/20230510_";
    assert KeyOf("src/a.jpg", exif, opts) == Some(key);
    assert ParentExists(st0, key);
    StepIntoNewDir(Stats(0, 0), st0, "src/a.jpg", exif, opts, key);
  }

  /** With /out/20230510_/a.jpg already there, the new a.jpg goes to /out/20230510_/001_a.jpg. */
  lemma EndToEndCollisionExample(st0: FsState)
    requires "/out/20230510_" in st0.dirs && "src/a.jpg" in st0.files && "/out/20230510_/a.jpg" in st0.files
    requires !Exists(st0, "/out/20230510_/001_a.jpg")
    ensures
      var exif := map["src/a.jpg" := Tags(Some("2023:05:10 12:00:00"), None)];
      Run(st0, ["src/a.jpg"], exif, Options("/out", false, true)) ==
        Running(Stats(0, 1), FsState(st0.dirs, st0.files - {"src/a.jpg"} + {"/out/20230510_/001_a.jpg"}))
  {
    OutKey();
    OutNames();
    DirNameExample();
    var exif := map["src/a.jpg" := Tags(Some("2023:05:10 12:00:00"), None)];
    var opts := Options("/out", false, true);
    var key := "/out/20230510_";
    assert ["src/a.jpg"][..0] == [];
    assert KeyOf("src/a.jpg", exif, opts) == Some(key);
    assert MakeDirSpec(st0, key) == Effect(Ok(false), st0);
    assert Taken(st0, key, "a.jpg", 0);
    PlaceAtFirstFree(st0, "src/a.jpg", key, opts.moveFiles, 1);
    var st1 := FsState(st0.dirs, st0.files - {"src/a.jpg"} + {"/out/20230510_/001_a.jpg"});
    assert PlaceSpec(st0, "src/a.jpg", key, opts.moveFiles) == Effect(Ok(1), st1);
    PlaceDatedOk(Stats(0, 0), st0, "src/a.jpg", key, opts.moveFiles, false, st0, 1, st1);
    StepOnKey(Stats(0, 0), st0, "src/a.jpg", exif, opts, key);
  }
}
