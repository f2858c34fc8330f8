/**
 * The batch inspector (LGCInspector2/ViewModels/MainViewModel.cs): the run
 * command, its guards, the image-file filter, the camera dispatch by file
 * name, the per-file presence gate, prediction and routing into the
 * Result_OK and Result_NG folders, the progress counters and the cleanup.
 *
 * The file system and the engines' foreign collaborators are inputs
 * (an Environment); the destination folders are maps from file name to the
 * path of the source file copied there.
 */
module Inspector {
  import opened Wrappers
  import opened Inference

  const ModelPath1: string := "Cam01.onnx"
  const ModelPath2: string := "Cam02.onnx"
  const Cam1Tag: string := "_Lucid-1_"
  const Cam2Tag: string := "_Lucid-2_"

  /** Which engine a file goes to, decided by its name. */
  datatype Camera = Cam1 | Cam2 | Unmatched

  /** The status line, one case per message the view model shows. */
  datatype Status =
    | ModelsExpected                                       // initial hint about Cam01.onnx and Cam02.onnx
    | FolderMissing                                        // no source folder, or it does not exist
    | ModelFilesMissing                                    // a model file is not next to the program
    | LoadingModels
    | SkipNotice(fileName: string)                         // name matches no camera
    | Inspected(verdict: Verdict, fileName: string, camera: Camera)
    | FileError(fileName: string, cause: Fault)            // "Err: name - message"
    | InspectionDone(total: nat)
    | FatalError(cause: Fault)

  // ---------------------------------------------------------------------------
  // File selection

  /** Ordinal upper-casing; only ASCII letters have to be folded to compare
      against ".jpg", ".png" and ".bmp". */
  function AsciiUpper(c: char): (u: char)
  {
    if 'a' <= c <= 'z' then (c as int - 32) as char else c
  }

  /** String.EndsWith(suffix, StringComparison.OrdinalIgnoreCase). */
  predicate EndsWithIgnoreCase(s: string, suffix: string)
  {
    |suffix| <= |s| &&
    forall k | 0 <= k < |suffix| :: AsciiUpper(s[|s| - |suffix| + k]) == AsciiUpper(suffix[k])
  }

  /** The extension filter applied to the directory listing. */
  predicate IsImagePath(path: string)
  {
    EndsWithIgnoreCase(path, ".jpg") || EndsWithIgnoreCase(path, ".png") || EndsWithIgnoreCase(path, ".bmp")
  }

  /** Array.FindAll over the listing: the image paths, in listing order. */
  function SelectImages(files: seq<string>): (images: seq<string>)
    ensures |images| <= |files|
  {
    if files == [] then []
    else (if IsImagePath(files[0]) then [files[0]] else []) + SelectImages(files[1..])
  }

  /** The selection holds each listed image path as many times as it is
      listed, and nothing else. */
  lemma {:induction false} SelectImagesCounts(files: seq<string>)
    ensures forall f :: multiset(SelectImages(files))[f] == if IsImagePath(f) then multiset(files)[f] else 0
  {
    if files != [] {
      SelectImagesCounts(files[1..]);
      assert files == [files[0]] + files[1..];
    }
  }

  /** A path is selected exactly when it is listed and is an image path. */
  lemma SelectImagesMembers(files: seq<string>)
    ensures forall f :: f in SelectImages(files) <==> f in files && IsImagePath(f)
  {
    SelectImagesCounts(files);
    forall f ensures f in SelectImages(files) <==> f in files && IsImagePath(f) {
      assert f in SelectImages(files) <==> multiset(SelectImages(files))[f] > 0;
      assert f in files <==> multiset(files)[f] > 0;
    }
  }

  /** The selection is as long as the listing exactly when every listed path
      is an image path. */
  lemma {:induction false} SelectImagesAll(files: seq<string>)
    ensures |SelectImages(files)| == |files| <==> forall k | 0 <= k < |files| :: IsImagePath(files[k])
  {
    if files != [] {
      var rest := files[1..];
      SelectImagesAll(rest);
      if !IsImagePath(files[0]) {
        assert |SelectImages(files)| < |files|;
      } else if forall k | 0 <= k < |rest| :: IsImagePath(rest[k]) {
        forall k | 0 <= k < |files| ensures IsImagePath(files[k]) {
          if k > 0 {
            assert files[k] == rest[k - 1];
          }
        }
      } else {
        var k :| 0 <= k < |rest| && !IsImagePath(rest[k]);
        assert files[k + 1] == rest[k];
      }
    }
  }

  /** A one-path listing keeps its path exactly when it is an image. */
  lemma SelectImagesSingleton(f: string)
    ensures SelectImages([f]) == if IsImagePath(f) then [f] else []
  {
    assert [f][1..] == [];
  }

  /** Selecting from a listing with a given first path: that path, if it is
      an image, then the selection of the rest. */
  lemma SelectImagesCons(f: string, rest: seq<string>)
    ensures SelectImages([f] + rest) == (if IsImagePath(f) then [f] else []) + SelectImages(rest)
  {
    assert ([f] + rest)[0] == f && ([f] + rest)[1..] == rest;
  }

  /** The selection of a concatenation is the concatenation of the
      selections; with SelectImagesSingleton this makes the selection the
      order-preserving filter of the listing. */
  lemma {:induction false} SelectImagesAppend(a: seq<string>, b: seq<string>)
    ensures SelectImages(a + b) == SelectImages(a) + SelectImages(b)
  {
    if a == [] {
      assert a + b == b;
    } else {
      var f, rest := a[0], a[1..];
      assert a == [f] + rest && a + b == [f] + (rest + b);
      SelectImagesCons(f, rest);
      SelectImagesCons(f, rest + b);
      SelectImagesAppend(rest, b);
    }
  }

  /** The extension test ignores case and looks only at the last four
      characters: "A.JPG" is an image path, "c.jpeg" is not. */
  lemma ExtensionExamples()
    ensures IsImagePath("A.JPG")
    ensures !IsImagePath("c.jpeg")
  {
    assert EndsWithIgnoreCase("A.JPG", ".jpg") by {
      forall k | 0 <= k < 4 ensures AsciiUpper("A.JPG"[1 + k]) == AsciiUpper(".jpg"[k]) {
      }
    }
    var name := "c.jpeg";
    assert name[|name| - 4] == 'j' && AsciiUpper('j') != AsciiUpper('.');
    assert AsciiUpper(name[|name| - |".jpg"| + 0]) != AsciiUpper(".jpg"[0]);
    assert AsciiUpper(name[|name| - |".png"| + 0]) != AsciiUpper(".png"[0]);
    assert AsciiUpper(name[|name| - |".bmp"| + 0]) != AsciiUpper(".bmp"[0]);
  }

  // ---------------------------------------------------------------------------
  // File names and camera dispatch

  predicate IsPathSeparator(c: char)
  {
    c == '\\' || c == '/'
  }

  /** Path.GetFileName: the part of a path after its last separator. */
  function FileName(path: string): (name: string)
  {
    if path == [] || IsPathSeparator(path[|path| - 1]) then []
    else FileName(path[..|path| - 1]) + [path[|path| - 1]]
  }

  /** The file name is the longest suffix of the path without a separator:
      a suffix, free of separators, and preceded by a separator unless it is
      the whole path. */
  lemma {:induction false} FileNameIsLastComponent(path: string)
    ensures var name := FileName(path);
      |name| <= |path| && name == path[|path| - |name|..]
      && (forall k | 0 <= k < |name| :: !IsPathSeparator(name[k]))
      && (|name| < |path| ==> IsPathSeparator(path[|path| - |name| - 1]))
  {
    if path != [] && !IsPathSeparator(path[|path| - 1]) {
      var init := path[..|path| - 1];
      FileNameIsLastComponent(init);
      var name := FileName(path);
      assert name == FileName(init) + [path[|path| - 1]];
      assert init[|init| - |FileName(init)|..] + [path[|path| - 1]] == path[|path| - |name|..];
    }
  }

  predicate OccursAt(s: string, sub: string, i: nat)
  {
    i + |sub| <= |s| && s[i..i + |sub|] == sub
  }

  /** String.Contains (ordinal). */
  predicate Contains(s: string, sub: string)
  {
    exists i: nat | i <= |s| :: OccursAt(s, sub, i)
  }

  /** The camera a file name is dispatched to: the camera-1 tag is tested first. */
  function CameraOf(fileName: string): (cam: Camera)
  {
    if Contains(fileName, Cam1Tag) then Cam1
    else if Contains(fileName, Cam2Tag) then Cam2
    else Unmatched
  }

  /** Dispatch in full: camera 1 exactly for names with the camera-1 tag, so
      also for names with both tags; camera 2 for names with only the camera-2
      tag; no camera for names with neither. */
  lemma CameraDispatch(fileName: string)
    ensures CameraOf(fileName) == Cam1 <==> Contains(fileName, Cam1Tag)
    ensures CameraOf(fileName) == Cam2 <==> !Contains(fileName, Cam1Tag) && Contains(fileName, Cam2Tag)
    ensures CameraOf(fileName) == Unmatched <==> !Contains(fileName, Cam1Tag) && !Contains(fileName, Cam2Tag)
  {
  }

  /** "Line_Lucid-1_0007.jpg" goes to camera 1, a name carrying both tags does
      too, and "frame_0007.jpg", with no tag, goes to no camera. */
  lemma CameraExamples()
    ensures CameraOf("Line_Lucid-1_0007.jpg") == Cam1
    ensures CameraOf("A_Lucid-2_B_Lucid-1_C.png") == Cam1
    ensures CameraOf("frame_0007.jpg") == Unmatched
  {
    assert OccursAt("Line_Lucid-1_0007.jpg", Cam1Tag, 4);
    assert OccursAt("A_Lucid-2_B_Lucid-1_C.png", Cam1Tag, 11);
    var name := "frame_0007.jpg";
    forall i: nat | i <= |name|
      ensures !OccursAt(name, Cam1Tag, i) && !OccursAt(name, Cam2Tag, i)
    {
      if i + 9 <= |name| {
        assert name[i..i + 9][1] == name[i + 1] != 'L';
      }
    }
  }

  // ---------------------------------------------------------------------------
  // The environment a run sees

  /** What the file system and the foreign libraries produce for one image:
      its grey-level decode, its resized colour decode (None when empty), and
      the message of the exception File.Copy throws, if it throws. */
  datatype FileProbe = FileProbe(gray: GrayDecode, color: Option<Raster>, copyFault: Option<string>)

  /** Everything a run observes: whether the source folder exists, which model
      files exist, what the runtime does with each model file, the listing of
      the source folder (or the message of the exception that creating the
      result folders or listing threw), and each file's probe. */
  datatype Environment = Environment(
    dirExists: bool,
    modelFiles: set<string>,
    open1: LoadOutcome,
    open2: LoadOutcome,
    listing: Result<seq<string>, string>,
    probe: string -> FileProbe)

  /** The two loaded sessions and the probes: all a file's processing depends on. */
  datatype Batch = Batch(cam1: Session, cam2: Session, probe: string -> FileProbe)

  // ---------------------------------------------------------------------------
  // One file

  /** How one file ends: skipped, copied with a verdict, or failed with the exception it threw. */
  datatype FileResult = Skipped | Copied(verdict: Verdict, camera: Camera) | Failed(cause: Fault)

  function SessionFor(cam: Camera, b: Batch): (s: Session)
  {
    if cam == Cam1 then b.cam1 else b.cam2
  }

  /** The gate, then Predict when a product is present. */
  function VerdictFor(file: string, cam: Camera, b: Batch): (r: Result<Verdict, Fault>)
  {
    if !IsProductExist(b.probe(file).gray, DefaultMeanThreshold, DefaultStdThreshold) then Success(OK)
    else PredictOutcome(Some(SessionFor(cam, b)), file, b.probe(file).color)
  }

  function ResultOf(file: string, b: Batch): (r: FileResult)
  {
    var cam := CameraOf(FileName(file));
    if cam == Unmatched then Skipped
    else match VerdictFor(file, cam, b)
      case Failure(f) => Failed(f)
      case Success(v) =>
        if b.probe(file).copyFault.Some? then Failed(IoFailed(b.probe(file).copyFault.value)) else Copied(v, cam)
  }

  /** The result of every file of a batch. */
  function ResultsOf(b: Batch): (results: string -> FileResult)
  {
    f => ResultOf(f, b)
  }

  /** Whether a result is a copy into Result_OK (toOk) or into Result_NG (!toOk):
      only the verdict OK goes to Result_OK, every other verdict to Result_NG. */
  predicate RoutedTo(r: FileResult, toOk: bool)
  {
    r.Copied? && (r.verdict == OK) == toOk
  }

  /** The file-level guarantees: a skipped file is one whose name matches no
      camera; an empty frame is OK without a prediction; a present product
      gets Predict's verdict; ERROR and NG are routed to Result_NG. */
  lemma ResultCases(file: string, b: Batch)
    ensures ResultOf(file, b) == Skipped <==> CameraOf(FileName(file)) == Unmatched
    ensures CameraOf(FileName(file)) != Unmatched && b.probe(file).copyFault.None?
            && !IsProductExist(b.probe(file).gray, DefaultMeanThreshold, DefaultStdThreshold)
            ==> ResultOf(file, b) == Copied(OK, CameraOf(FileName(file)))
    ensures ResultOf(file, b).Copied? && IsProductExist(b.probe(file).gray, DefaultMeanThreshold, DefaultStdThreshold)
            ==> Success(ResultOf(file, b).verdict)
                == PredictOutcome(Some(SessionFor(CameraOf(FileName(file)), b)), file, b.probe(file).color)
    ensures ResultOf(file, b).Copied? ==> (RoutedTo(ResultOf(file, b), true) <==> ResultOf(file, b).verdict == OK)
    ensures ResultOf(file, b).Copied? && ResultOf(file, b).verdict in {NG, ERROR} ==> RoutedTo(ResultOf(file, b), false)
    ensures ResultOf(file, b).Copied? ==> ResultOf(file, b).camera == CameraOf(FileName(file)) != Unmatched
  {
  }

  // ---------------------------------------------------------------------------
  // Progress over the batch

  /** The counters, the status line and the two destination folders. */
  datatype Progress = Progress(current: nat, percent: nat, status: Status, ok: map<string, string>, ng: map<string, string>)

  /** ProgressPercent, as an integer floor of current / total * 100. */
  function Percent(current: nat, total: nat): (pct: nat)
    requires total > 0
  {
    current * 100 / total
  }

  /** The percentage lies in [0, 100] and is 100 exactly when the batch is complete. */
  lemma PercentBounds(current: nat, total: nat)
    requires 0 < total && current <= total
    ensures Percent(current, total) <= 100
    ensures Percent(current, total) == 100 <==> current == total
  {
    var q, r := current * 100 / total, current * 100 % total;
    assert current * 100 == q * total + r;
    MulMonotone(current, total, 100);
    if q > 100 {
      MulMonotone(101, q, total);
      assert false;
    }
    if current < total {
      MulMonotone(current + 1, total, 100);
      if q == 100 {
        assert false;
      }
    } else {
      DivModOf(100, 0, total);
    }
  }

  /** One iteration of the foreach over the image files. */
  function Step(p: Progress, file: string, r: FileResult, total: nat): (q: Progress)
    requires total > 0
  {
    var name := FileName(file);
    match r
    case Skipped => p.(current := p.current + 1, status := SkipNotice(name))
    case Failed(f) => p.(status := FileError(name, f))
    case Copied(v, cam) =>
      var copied := if v == OK then p.(ok := p.ok[name := file]) else p.(ng := p.ng[name := file]);
      copied.(current := p.current + 1, percent := Percent(p.current + 1, total), status := Inspected(v, name, cam))
  }

  /** The loop run over the files, from a starting state, with the run's total
      and each file's result. */
  function Run(files: seq<string>, total: nat, results: string -> FileResult, start: Progress): (p: Progress)
    requires |files| <= total
  {
    if files == [] then start
    else
      var last := files[|files| - 1];
      Step(Run(files[..|files| - 1], total, results, start), last, results(last), total)
  }

  /** Per-file accounting: a skipped file adds exactly one to the progress and
      leaves the percentage and the folders as they were; a failed file leaves
      the progress, the percentage and the folders as they were and reports its
      error; a copied file adds one, sets the percentage from the new count and
      writes exactly one entry, into the folder its verdict selects. */
  lemma StepAccounting(p: Progress, file: string, r: FileResult, total: nat)
    requires total > 0
    ensures var q := Step(p, file, r, total); var name := FileName(file);
      match r
      case Skipped => q.current == p.current + 1 && q.percent == p.percent
                      && q.ok == p.ok && q.ng == p.ng && q.status == SkipNotice(name)
      case Failed(f) => q.current == p.current && q.percent == p.percent
                        && q.ok == p.ok && q.ng == p.ng && q.status == FileError(name, f)
      case Copied(v, cam) => q.current == p.current + 1 && q.percent == Percent(p.current + 1, total)
                             && q.status == Inspected(v, name, cam)
                             && (v == OK ==> q.ok == p.ok[name := file] && q.ng == p.ng)
                             && (v != OK ==> q.ng == p.ng[name := file] && q.ok == p.ok)
  {
  }

  /** How many files of each kind. */
  datatype Tally = Tally(skipped: nat, copied: nat, failed: nat)

  function TallyOf(files: seq<string>, results: string -> FileResult): (tally: Tally)
  {
    if files == [] then Tally(0, 0, 0)
    else
      var t := TallyOf(files[..|files| - 1], results);
      match results(files[|files| - 1])
      case Skipped => t.(skipped := t.skipped + 1)
      case Copied(_, _) => t.(copied := t.copied + 1)
      case Failed(_) => t.(failed := t.failed + 1)
  }

  /** Exactly one of skipped, copied and failed is recorded per file. */
  lemma {:induction false} TallyPartitions(files: seq<string>, results: string -> FileResult)
    ensures TallyOf(files, results).skipped + TallyOf(files, results).copied + TallyOf(files, results).failed == |files|
  {
    if files != [] {
      TallyPartitions(files[..|files| - 1], results);
    }
  }

  /** After the loop CurrentProgress is the number of skipped files plus the
      number of copied files: failed files are not counted. */
  lemma {:induction false} RunCountsProgress(files: seq<string>, total: nat, results: string -> FileResult, start: Progress)
    requires |files| <= total
    ensures Run(files, total, results, start).current == start.current + TallyOf(files, results).skipped + TallyOf(files, results).copied
  {
    if files != [] {
      RunCountsProgress(files[..|files| - 1], total, results, start);
    }
  }

  /** Throughout the loop and after it, 0 <= CurrentProgress <= TotalCount and
      0 <= ProgressPercent <= 100 (for every prefix of the file list). */
  lemma {:induction false} RunBounds(files: seq<string>, total: nat, results: string -> FileResult, start: Progress)
    requires |files| <= total && start.current == 0 && start.percent <= 100
    ensures Run(files, total, results, start).current <= |files|
    ensures Run(files, total, results, start).percent <= 100
  {
    if files != [] {
      var init := files[..|files| - 1];
      RunBounds(init, total, results, start);
      var p := Run(init, total, results, start);
      if results(files[|files| - 1]).Copied? {
        PercentBounds(p.current + 1, total);
      }
    }
  }

  /** When the file that completes the batch is copied, ProgressPercent becomes 100. */
  lemma {:induction false} RunCompletes(files: seq<string>, results: string -> FileResult, start: Progress)
    requires files != [] && start.current == 0 && start.percent <= 100
    requires results(files[|files| - 1]).Copied?
    requires Run(files, |files|, results, start).current == |files|
    ensures Run(files, |files|, results, start).percent == 100
  {
    var init := files[..|files| - 1];
    RunBounds(init, |files|, results, start);
    PercentBounds(|files|, |files|);
  }

  /** A skipped last file leaves the percentage where the last copy put it:
      "a" copied then "b" skipped ends with both counted and 50 percent. */
  lemma SkippedLastFileExample()
    ensures var results := (f: string) => if f == "a" then Copied(OK, Cam1) else Skipped;
      var p := Run(["a", "b"], 2, results, Progress(0, 0, LoadingModels, map[], map[]));
      p.current == 2 && p.percent == 50
  {
    var results := (f: string) => if f == "a" then Copied(OK, Cam1) else Skipped;
    var start := Progress(0, 0, LoadingModels, map[], map[]);
    assert ["a", "b"][..1] == ["a"] && ["a"][..0] == [];
    var p1 := Run(["a"], 2, results, start);
    assert p1.current == 1 && p1.percent == Percent(1, 2) == 50;
  }

  /** What the loop writes into one folder (toOk: Result_OK, else Result_NG);
      later writes of the same name overwrite earlier ones. */
  function Writes(files: seq<string>, results: string -> FileResult, toOk: bool): (written: map<string, string>)
  {
    if files == [] then map[]
    else
      var w := Writes(files[..|files| - 1], results, toOk);
      var last := files[|files| - 1];
      if RoutedTo(results(last), toOk) then w[FileName(last) := last] else w
  }

  /** The folders after the loop are the folders before it, overwritten by the
      loop's copies; nothing is ever removed. */
  lemma {:induction false} RunFolders(files: seq<string>, total: nat, results: string -> FileResult, start: Progress)
    requires |files| <= total
    ensures Run(files, total, results, start).ok == start.ok + Writes(files, results, true)
    ensures Run(files, total, results, start).ng == start.ng + Writes(files, results, false)
  {
    if files != [] {
      RunFolders(files[..|files| - 1], total, results, start);
    }
  }

  /** Every copied file reaches the folder its verdict selects, under its file
      name; and every entry a run writes is a file of the batch with that name
      whose verdict selects that folder. */
  lemma {:induction false} WritesRouting(files: seq<string>, results: string -> FileResult, toOk: bool)
    ensures forall f | f in files && RoutedTo(results(f), toOk) :: FileName(f) in Writes(files, results, toOk)
    ensures forall n | n in Writes(files, results, toOk) ::
      Writes(files, results, toOk)[n] in files && FileName(Writes(files, results, toOk)[n]) == n
      && RoutedTo(results(Writes(files, results, toOk)[n]), toOk)
  {
    if files != [] {
      var init := files[..|files| - 1];
      WritesRouting(init, results, toOk);
      assert files == init + [files[|files| - 1]];
    }
  }

  /** A skipped or failed file is copied nowhere (when names are distinct, as
      in one directory's listing). */
  lemma UncopiedFileWrittenNowhere(files: seq<string>, results: string -> FileResult, f: string)
    requires forall i, j | 0 <= i < j < |files| :: FileName(files[i]) != FileName(files[j])
    requires f in files && !results(f).Copied?
    ensures FileName(f) !in Writes(files, results, true) && FileName(f) !in Writes(files, results, false)
  {
    WritesRouting(files, results, true);
    WritesRouting(files, results, false);
    forall g | g in files && FileName(g) == FileName(f)
      ensures g == f
    {
      var i :| 0 <= i < |files| && files[i] == g;
      var j :| 0 <= j < |files| && files[j] == f;
    }
  }

  // ---------------------------------------------------------------------------
  // Engine calls

  /** A call into an engine: the presence check or the prediction. */
  datatype EngineCall = PresenceCheck(camera: Camera, file: string) | Inference(camera: Camera, file: string)

  function CallsFor(file: string, b: Batch): (calls: seq<EngineCall>)
  {
    var cam := CameraOf(FileName(file));
    if cam == Unmatched then []
    else if !IsProductExist(b.probe(file).gray, DefaultMeanThreshold, DefaultStdThreshold) then [PresenceCheck(cam, file)]
    else [PresenceCheck(cam, file), Inference(cam, file)]
  }

  function Calls(files: seq<string>, b: Batch): (calls: seq<EngineCall>)
  {
    if files == [] then [] else Calls(files[..|files| - 1], b) + CallsFor(files[|files| - 1], b)
  }

  /** Engine calls are made only for files of the batch, on the camera their
      name selects, never for a skipped file, and a prediction only for a
      frame that passes the presence gate. */
  lemma {:induction false} CallsAreDispatched(files: seq<string>, b: Batch)
    ensures forall call | call in Calls(files, b) ::
      call.file in files && call.camera == CameraOf(FileName(call.file)) && call.camera != Unmatched
      && ResultOf(call.file, b) != Skipped
      && (call.Inference? ==> IsProductExist(b.probe(call.file).gray, DefaultMeanThreshold, DefaultStdThreshold))
  {
    if files != [] {
      var init := files[..|files| - 1];
      CallsAreDispatched(init, b);
      assert files == init + [files[|files| - 1]];
    }
  }

  // ---------------------------------------------------------------------------
  // A whole run, as a function of the environment

  /** The guards before the run: a source folder that exists, and both model files. */
  predicate Starts(sourceDir: string, env: Environment)
  {
    sourceDir != "" && env.dirExists && ModelPath1 in env.modelFiles && ModelPath2 in env.modelFiles
  }

  /** The status a failed guard leaves. */
  function GuardStatus(sourceDir: string, env: Environment): (s: Status)
  {
    if sourceDir == "" || !env.dirExists then FolderMissing else ModelFilesMissing
  }

  /** Both models load and the listing succeeds: the loop runs. */
  predicate Ready(env: Environment)
  {
    env.open1.Opened? && env.open2.Opened? && env.listing.Success?
  }

  function BatchOf(env: Environment): (b: Batch)
    requires env.open1.Opened? && env.open2.Opened?
  {
    Batch(Session(ModelPath1, env.open1.net), Session(ModelPath2, env.open2.net), env.probe)
  }

  function ImagesOf(env: Environment): (images: seq<string>)
    requires env.listing.Success?
  {
    SelectImages(env.listing.value)
  }

  /** The counters and folders after the loop of a run that reaches it. */
  function BatchRun(env: Environment, ok: map<string, string>, ng: map<string, string>): (p: Progress)
    requires Ready(env)
  {
    var files := ImagesOf(env);
    Run(files, |files|, ResultsOf(BatchOf(env)), Progress(0, 0, LoadingModels, ok, ng))
  }

  /** The status a started run ends with: the first fatal error, or the completion message. */
  function FinalStatus(env: Environment): (s: Status)
  {
    if env.open1.OpenFailed? then FatalError(ModelLoadFailed(ModelPath1, env.open1.reason))
    else if env.open2.OpenFailed? then FatalError(ModelLoadFailed(ModelPath2, env.open2.reason))
    else if env.listing.Failure? then FatalError(IoFailed(env.listing.error))
    else InspectionDone(|ImagesOf(env)|)
  }

  /** Running the batch again on the same source leaves the same folder
      contents: copies overwrite, so nothing is duplicated or lost. */
  lemma RerunIsIdempotent(env: Environment, ok: map<string, string>, ng: map<string, string>)
    requires Ready(env)
    ensures var first := BatchRun(env, ok, ng);
      BatchRun(env, first.ok, first.ng).ok == first.ok && BatchRun(env, first.ok, first.ng).ng == first.ng
  {
    var files := ImagesOf(env);
    var b := ResultsOf(BatchOf(env));
    var first := BatchRun(env, ok, ng);
    RunFolders(files, |files|, b, Progress(0, 0, LoadingModels, ok, ng));
    RunFolders(files, |files|, b, Progress(0, 0, LoadingModels, first.ok, first.ng));
    var wOk, wNg := Writes(files, b, true), Writes(files, b, false);
    assert (ok + wOk) + wOk == ok + wOk;
    assert (ng + wNg) + wNg == ng + wNg;
  }

  // ---------------------------------------------------------------------------
  // State

  /** The two destination folders under the source folder: file name to the
      path of the source file whose copy is stored there. */
  class OutputFolders {
    var ok: map<string, string>
    var ng: map<string, string>

    constructor (ok0: map<string, string>, ng0: map<string, string>)
      ensures ok == ok0 && ng == ng0
    {
      ok, ng := ok0, ng0;
    }

    /** File.Copy(source, folder/name, overwrite: true) into Result_OK or Result_NG;
        the other folder and the source stay as they are. */
    method Copy(toOk: bool, name: string, source: string)
      modifies this
      ensures toOk ==> ok == old(ok)[name := source] && ng == old(ng)
      ensures !toOk ==> ng == old(ng)[name := source] && ok == old(ok)
    {
      if toOk {
        ok := ok[name := source];
      } else {
        ng := ng[name := source];
      }
    }
  }

  class MainViewModel {
    const engineCam1: InferenceEngine
    const engineCam2: InferenceEngine
    /** SourceDir; the empty string also stands for null. */
    var sourceDir: string
    var statusMessage: Status
    var totalCount: nat
    var currentProgress: nat
    var progressPercent: nat
    var isBusy: bool
    /** Every engine call made so far, in order. */
    ghost var engineLog: seq<EngineCall>

    ghost predicate Valid()
      reads this, engineCam1, engineCam2
    {
      engineCam1 != engineCam2 && engineCam1.Valid() && engineCam2.Valid()
    }

    constructor ()
      ensures Valid() && fresh(engineCam1) && fresh(engineCam2)
      ensures engineCam1.session.None? && engineCam2.session.None?
      ensures sourceDir == "" && statusMessage == ModelsExpected && !isBusy
      ensures totalCount == 0 && currentProgress == 0 && progressPercent == 0 && engineLog == []
    {
      engineCam1 := new InferenceEngine();
      engineCam2 := new InferenceEngine();
      sourceDir := "";
      statusMessage := ModelsExpected;
      totalCount, currentProgress, progressPercent := 0, 0, 0;
      isBusy := false;
      engineLog := [];
    }

    /** The run command's CanExecute. */
    predicate CanRunInspection()
      reads this
    {
      !isBusy
    }

    /** The batch as the run command starts it: guards, loading, the loop,
        and the cleanup that every started run ends with. */
    method RunInspection(env: Environment, disk: OutputFolders)
      requires Valid()
      modifies this, disk, engineCam1, engineCam2
      ensures Valid() && sourceDir == old(sourceDir)
      // A failed guard reports and returns before the run starts.
      ensures !Starts(sourceDir, env) ==>
        statusMessage == GuardStatus(sourceDir, env) && isBusy == old(isBusy)
        && totalCount == old(totalCount) && currentProgress == old(currentProgress)
        && progressPercent == old(progressPercent) && engineLog == old(engineLog)
        && unchanged(disk) && unchanged(engineCam1, engineCam2)
      // Every exit of a started run clears IsBusy and releases both engines.
      ensures Starts(sourceDir, env) ==>
        !isBusy && !engineCam1.sessionOpen && !engineCam2.sessionOpen && statusMessage == FinalStatus(env)
      ensures Starts(sourceDir, env) ==>
        engineCam1.session == (if env.open1.Opened? then Some(Session(ModelPath1, env.open1.net)) else old(engineCam1.session))
      ensures Starts(sourceDir, env) ==>
        engineCam2.session == (if env.open1.Opened? && env.open2.Opened? then Some(Session(ModelPath2, env.open2.net))
                               else old(engineCam2.session))
      // A fatal error before the loop leaves the counters reset and the folders alone.
      ensures Starts(sourceDir, env) && !Ready(env) ==>
        currentProgress == 0 && progressPercent == 0 && unchanged(disk) && engineLog == old(engineLog)
        && totalCount == old(totalCount)
      // Otherwise the counters and the folders are those of the loop over the image files.
      ensures Starts(sourceDir, env) && Ready(env) ==>
        var p := BatchRun(env, old(disk.ok), old(disk.ng));
        totalCount == |ImagesOf(env)| && currentProgress == p.current && progressPercent == p.percent
        && disk.ok == p.ok && disk.ng == p.ng
        && engineLog == old(engineLog) + Calls(ImagesOf(env), BatchOf(env))
    {
      if sourceDir == "" || !env.dirExists {
        statusMessage := FolderMissing;
        return;
      }
      if ModelPath1 !in env.modelFiles || ModelPath2 !in env.modelFiles {
        statusMessage := ModelFilesMissing;
        return;
      }
      isBusy := true;
      currentProgress := 0;
      progressPercent := 0;

      var fault: Option<Fault> := None;
      statusMessage := LoadingModels;
      var loaded1 := engineCam1.LoadModel(ModelPath1, env.open1);
      if loaded1.Fail? {
        fault := Some(loaded1.error);
      } else {
        var loaded2 := engineCam2.LoadModel(ModelPath2, env.open2);
        if loaded2.Fail? {
          fault := Some(loaded2.error);
        } else if env.listing.Failure? {
          fault := Some(IoFailed(env.listing.error));
        } else {
          var imageFiles := SelectImages(env.listing.value);
          totalCount := |imageFiles|;
          if totalCount != 0 {
            InspectFiles(imageFiles, env.probe, disk);
          }
        }
      }
      statusMessage := if fault.Some? then FatalError(fault.value) else InspectionDone(totalCount);

      isBusy := false;
      engineCam1.Dispose();
      engineCam2.Dispose();
    }

    /** The counters, the status line and the folders, as one value. */
    ghost function ProgressOf(disk: OutputFolders): (p: Progress)
      reads this, disk
    {
      Progress(currentProgress, progressPercent, statusMessage, disk.ok, disk.ng)
    }

    /** The foreach over the image files. */
    method InspectFiles(imageFiles: seq<string>, probe: string -> FileProbe, disk: OutputFolders)
      requires Valid() && engineCam1.sessionOpen && engineCam2.sessionOpen
      requires totalCount == |imageFiles| > 0
      modifies this, disk
      ensures Valid() && totalCount == old(totalCount) && sourceDir == old(sourceDir) && isBusy == old(isBusy)
      ensures var b := Batch(engineCam1.session.value, engineCam2.session.value, probe);
        ProgressOf(disk) == Run(imageFiles, |imageFiles|, ResultsOf(b), old(ProgressOf(disk)))
        && engineLog == old(engineLog) + Calls(imageFiles, b)
    {
      ghost var b := Batch(engineCam1.session.value, engineCam2.session.value, probe);
      ghost var start := ProgressOf(disk);
      ghost var log0 := engineLog;
      for i := 0 to |imageFiles|
        invariant Valid() && totalCount == old(totalCount) && sourceDir == old(sourceDir) && isBusy == old(isBusy)
        invariant ProgressOf(disk) == Run(imageFiles[..i], |imageFiles|, ResultsOf(b), start)
        invariant engineLog == log0 + Calls(imageFiles[..i], b)
      {
        assert imageFiles[..i + 1][..i] == imageFiles[..i];
        InspectFile(imageFiles[i], probe, disk);
      }
      assert imageFiles[..|imageFiles|] == imageFiles;
    }

    /** One iteration: dispatch by name (or skip), the presence gate, Predict,
        the copy and the counters, with any exception of the gate, Predict or
        the copy caught and reported. */
    method InspectFile(file: string, probe: string -> FileProbe, disk: OutputFolders)
      requires Valid() && engineCam1.sessionOpen && engineCam2.sessionOpen && totalCount > 0
      modifies this, disk
      ensures Valid() && totalCount == old(totalCount) && sourceDir == old(sourceDir) && isBusy == old(isBusy)
      ensures var b := Batch(engineCam1.session.value, engineCam2.session.value, probe);
        ProgressOf(disk) == Step(old(ProgressOf(disk)), file, ResultOf(file, b), totalCount)
        && engineLog == old(engineLog) + CallsFor(file, b)
    {
      var fileName := FileName(file);
      var cam := CameraOf(fileName);
      if cam == Unmatched {
        statusMessage := SkipNotice(fileName);
        currentProgress := currentProgress + 1;
        return;
      }
      var activeEngine := if cam == Cam1 then engineCam1 else engineCam2;
      var fileProbe := probe(file);
      var hasProduct := IsProductExist(fileProbe.gray, DefaultMeanThreshold, DefaultStdThreshold);
      engineLog := engineLog + [PresenceCheck(cam, file)];
      var result: Result<Verdict, Fault>;
      if !hasProduct {
        result := Success(OK);
      } else {
        engineLog := engineLog + [Inference(cam, file)];
        result := activeEngine.Predict(file, fileProbe.color);
      }
      if result.Failure? {
        statusMessage := FileError(fileName, result.error);
      } else if fileProbe.copyFault.Some? {
        statusMessage := FileError(fileName, IoFailed(fileProbe.copyFault.value));
      } else {
        disk.Copy(result.value == OK, fileName, file);
        currentProgress := currentProgress + 1;
        progressPercent := Percent(currentProgress, totalCount);
        statusMessage := Inspected(result.value, fileName, cam);
      }
    }

    /** RunInspectionCommand: runs the batch only while no run is in progress,
        and whatever happens no run is left in progress. */
    method ExecuteRunInspection(env: Environment, disk: OutputFolders)
      requires Valid()
      modifies this, disk, engineCam1, engineCam2
      ensures Valid()
      ensures old(isBusy) ==> unchanged(this, disk, engineCam1, engineCam2)
      ensures !old(isBusy) ==> !isBusy && sourceDir == old(sourceDir)
      // An idle command runs the batch: a failed guard reports it ...
      ensures !old(isBusy) && !Starts(sourceDir, env) ==>
        statusMessage == GuardStatus(sourceDir, env) && unchanged(disk)
      // ... and a started run ends with its final status and both sessions released ...
      ensures !old(isBusy) && Starts(sourceDir, env) ==>
        statusMessage == FinalStatus(env) && !engineCam1.sessionOpen && !engineCam2.sessionOpen
      // ... after the loop over the image files, when both models load and the listing succeeds.
      ensures !old(isBusy) && Starts(sourceDir, env) && Ready(env) ==>
        var p := BatchRun(env, old(disk.ok), old(disk.ng));
        totalCount == |ImagesOf(env)| && currentProgress == p.current && progressPercent == p.percent
        && disk.ok == p.ok && disk.ng == p.ng
    {
      if CanRunInspection() {
        RunInspection(env, disk);
      }
    }
  }
}
