# LGCInspector2 batch inspection, modelled in Dafny

LGCInspector2 is a desktop tool that inspects a folder of camera frames. It
loads two ONNX classifiers, one per camera (`Cam01.onnx`, `Cam02.onnx`). It
lists the folder's `.jpg`, `.png` and `.bmp` files. Each file goes to the
engine its name selects: names containing `_Lucid-1_` go to camera 1, names
containing `_Lucid-2_` go to camera 2, and every other file is skipped.
A cheap grey-level test, the presence gate, treats a frame with
too little brightness or contrast as an empty conveyor and calls it OK. Any
other frame is preprocessed into a 1 x 3 x 224 x 224 tensor. The model's output
is then read as OK, NG or ERROR. The frame is copied into `Result_OK`, or into
`Result_NG` for the other two verdicts. The counters, the progress percentage
and the status line follow each file. Whatever happens after the run starts,
it ends by clearing the busy flag and disposing both engines.

The project has three modules:

- `Wrappers` (`wrappers.dfy`): `Option`, `Result` and `Outcome`. These stand
  in for the source's null references and exceptions.
- `Inference` (`inference.dfy`): one engine. It covers the presence gate, how
  the output is read, the channel-major tensor layout, and the class
  `InferenceEngine`. The class holds the session field and the methods
  `LoadModel`, `PreprocessWithOpenCV` (the nested fill loop over an `array`),
  `Predict`, `GetRawScore` and `Dispose`.
- `Inspector` (`inspector.dfy`): the batch. It covers the extension filter,
  the file-name split, the camera dispatch and the per-file result. The loop
  is a fold over the image list (`Run`), with the counting, bounds, routing
  and idempotence lemmas about it. The class `MainViewModel` holds the
  observable fields and the methods `RunInspection`, `InspectFiles` (the loop)
  and `InspectFile` (one iteration). The loop method is proved equal to the
  fold. The two result folders are a class `OutputFolders` of maps from
  destination file name to the source path copied there.

The model takes as inputs what foreign code produces:

- OpenCV's decodes: the grey statistics and the resized colour raster.
- Each model file's network, as a function from tensor to output.
- The file-system answers: whether the folder exists, which model files are
  present, the directory listing and copy failures. These are collected in an
  `Environment`.

Several behaviours of the code may surprise a reader. The model follows the
code in each of them:

- A file whose inspection throws is reported, but `CurrentProgress` is not
  incremented for it (`StepAccounting`, `RunCountsProgress`). A batch with
  errors therefore ends below `TotalCount`, as the code behaves.
- A skipped file increments `CurrentProgress` but does not recompute
  `ProgressPercent`. If the last file of a batch is skipped, the percentage
  stays at its previous value, below 100 (`SkippedLastFileExample`).
  `RunCompletes` therefore asks for a copied last file.
- A failed guard (no folder, missing model files) only sets the status
  message. It leaves `IsBusy` and everything else as it was, and it does not
  dispose the engines.
- `Dispose` releases the session's native resources but does not set
  `_session` back to null. The model keeps the session value and clears a
  separate `sessionOpen` flag.
- The run command is guarded by `!IsBusy` through the CanExecute lambda
  `() => !IsBusy`, which the model writes as `CanRunInspection`.
  `ExecuteRunInspection` models a command that is executed only when that
  guard holds.

## Model

| member | source | states |
|---|---|---|
| Inference.IsProductExist | LGCInspector2/Models/InferenceEngine.cs:31-55 | false for an empty decode, otherwise the strict conjunction of mean above its threshold and deviation above its threshold; stated by PresenceGate and PresenceMonotone |
| Inference.PresenceGate | LGCInspector2/Models/InferenceEngine.cs:31-55 | an empty decode is no product; a mean or a standard deviation at or below its threshold is no product; both strictly above is a product (the strict conjunction, both directions) |
| Inference.PresenceMonotone | LGCInspector2/Models/InferenceEngine.cs:46-53 | lowering either threshold never turns a present product into an empty frame |
| Inference.BrightFlatFrameIsEmpty | LGCInspector2/Models/InferenceEngine.cs:46-53 | a frame with mean 60 and deviation 2 is empty under the default thresholds 50 and 5 |
| Inference.InterpretOutput | LGCInspector2/Models/InferenceEngine.cs:78-90 | the verdict read from the model output; stated by TwoClassVerdict, SingleScoreVerdict and ErrorVerdict |
| Inference.TwoClassVerdict | LGCInspector2/Models/InferenceEngine.cs:78-83 | with two or more outputs the verdict is NG iff out[1] > out[0] and OK iff out[1] <= out[0] (a tie is OK); the threshold and values past index 1 do not matter |
| Inference.SingleScoreVerdict | LGCInspector2/Models/InferenceEngine.cs:84-88 | with exactly one output the verdict is NG iff it exceeds the threshold, else OK |
| Inference.ErrorVerdict | LGCInspector2/Models/InferenceEngine.cs:90 | ERROR is returned (not thrown) exactly for an empty output |
| Inference.VerdictExamples | LGCInspector2/Models/InferenceEngine.cs:78-90 | [0.9,0.1] is OK, [0.1,0.9] NG, [0.5,0.5] OK, [0.85] NG, [0.79] OK under the 0.8 threshold |
| Inference.RawScore | LGCInspector2/Models/InferenceEngine.cs:147-153 | out[0], or the index error for an empty output; stated by RawScoreIsLeadingValue |
| Inference.RawScoreIsLeadingValue | LGCInspector2/Models/InferenceEngine.cs:147-153 | the raw score exists iff the output is non-empty, is out[0], and ignores everything after it |
| Inference.EngineGuards | LGCInspector2/Models/InferenceEngine.cs:57-92 | Predict and GetRawScore fail with the not-loaded error when there is no session; given a session and a decode, Predict's outcome is a verdict (ERROR included), not one of the engine's own errors |
| Inference.Scaled | LGCInspector2/Models/InferenceEngine.cs:122-124 | a channel byte divided by 255 lies in [0, 1] |
| Inference.TensorShape | LGCInspector2/Models/InferenceEngine.cs:106 | the dimensions 1, 3, height, width of the allocated tensor; its element count is stated by TensorShapeSize and PreprocessWithOpenCV allocates from it |
| Inference.TensorShapeSize | LGCInspector2/Models/InferenceEngine.cs:106 | a tensor with the dimensions 1 x 3 x height x width holds 3 * height * width elements, the length of TensorOf |
| Inference.FlatIndex | LGCInspector2/Models/InferenceEngine.cs:106-124 | element [0, c, y, x] has a flat offset inside the 3 * height * width buffer |
| Inference.TensorOf | LGCInspector2/Models/InferenceEngine.cs:106-126 | the filled tensor has exactly 3 * height * width elements |
| Inference.TensorOfAt | LGCInspector2/Models/InferenceEngine.cs:111-126 | the element at [0, c, y, x] is channel c of pixel (y, x) divided by 255 |
| Inference.FlatIndexInjective | LGCInspector2/Models/InferenceEngine.cs:106-124 | distinct (channel, row, column) triples occupy distinct offsets, so no write of the loop overwrites another |
| Inference.BgrToRgb | LGCInspector2/Models/InferenceEngine.cs:104 | one pixel's BGR2RGB conversion; its effect on the tensor is stated by TensorChannelOrigin |
| Inference.CvtColorBgrToRgb | LGCInspector2/Models/InferenceEngine.cs:104 | the BGR2RGB conversion of the whole resized raster; stated by TensorChannelOrigin |
| Inference.TensorChannelOrigin | LGCInspector2/Models/InferenceEngine.cs:104-124 | after BGR2RGB, tensor channel 0 holds the source pixel's third byte, channel 1 its second and channel 2 its first |
| Inference.TensorInUnitRange | LGCInspector2/Models/InferenceEngine.cs:117-124 | with normalisation switched off, every tensor element lies in [0, 1] |
| Inference.WritePixelStep | LGCInspector2/Models/InferenceEngine.cs:113-125 | one inner iteration's three writes extend the filled prefix by pixel (y, x) and keep every earlier pixel |
| Inference.InferenceEngine.constructor | LGCInspector2/Models/InferenceEngine.cs:12 | a new engine holds no session |
| Inference.InferenceEngine.LoadModel | LGCInspector2/Models/InferenceEngine.cs:18-29 | on success the engine holds an open session for that path and network; on failure it fails with the load error naming the path and keeps its previous session |
| Inference.InferenceEngine.PreprocessWithOpenCV | LGCInspector2/Models/InferenceEngine.cs:94-129 | an empty decode fails; otherwise a fresh array, allocated from the 1 x 3 x height x width shape and of that many elements, whose contents equal TensorOf of the BGR2RGB-swapped raster, filled by the nested row/column loop |
| Inference.InferenceEngine.Predict | LGCInspector2/Models/InferenceEngine.cs:57-92 | with no session or an open one, the result is the not-loaded error, the unreadable-image error, or the interpretation of the session's output on the preprocessed tensor (PredictOutcome) |
| Inference.InferenceEngine.GetRawScore | LGCInspector2/Models/InferenceEngine.cs:130-155 | with no session or an open one, the same guards as Predict, then out[0] of the session's output, or the index error for an empty output (RawScoreOutcome) |
| Inference.InferenceEngine.Dispose | LGCInspector2/Models/InferenceEngine.cs:156-159 | the session's resources are released and the reference is kept |
| Inspector.SelectImages | LGCInspector2/ViewModels/MainViewModel.cs:138-142 | the selection is never longer than the listing |
| Inspector.SelectImagesSingleton | LGCInspector2/ViewModels/MainViewModel.cs:139-142 | a one-path listing keeps its path exactly when the path ends, ignoring ASCII case, in .jpg, .png or .bmp |
| Inspector.SelectImagesCons | LGCInspector2/ViewModels/MainViewModel.cs:139-142 | the selection of a listing is its first path (if an image) followed by the selection of the rest |
| Inspector.SelectImagesAppend | LGCInspector2/ViewModels/MainViewModel.cs:139-142 | the selection of a concatenation is the concatenation of the selections; with SelectImagesSingleton this makes it the order-preserving filter of Array.FindAll |
| Inspector.SelectImagesCounts | LGCInspector2/ViewModels/MainViewModel.cs:139-144 | each image path occurs in the selection as often as in the listing and nothing else occurs, so TotalCount is the number of image paths listed |
| Inspector.SelectImagesMembers | LGCInspector2/ViewModels/MainViewModel.cs:139-142 | a path is selected iff it is listed and is an image path |
| Inspector.SelectImagesAll | LGCInspector2/ViewModels/MainViewModel.cs:139-144 | the selection is as long as the listing iff every listed path is an image path |
| Inspector.EndsWithIgnoreCase | LGCInspector2/ViewModels/MainViewModel.cs:140-142 | EndsWith with OrdinalIgnoreCase, folding ASCII letters; exercised by ExtensionExamples |
| Inspector.IsImagePath | LGCInspector2/ViewModels/MainViewModel.cs:139-142 | the FindAll predicate: one of the three extensions; stated by SelectImagesSingleton and SelectImagesMembers |
| Inspector.ExtensionExamples | LGCInspector2/ViewModels/MainViewModel.cs:139-142 | "A.JPG" is an image path and "c.jpeg" is not |
| Inspector.FileName | LGCInspector2/ViewModels/MainViewModel.cs:149 | Path.GetFileName, splitting on `\` and `/`; stated by FileNameIsLastComponent |
| Inspector.FileNameIsLastComponent | LGCInspector2/ViewModels/MainViewModel.cs:149 | the file name is a suffix of the path with no separator in it, preceded by a separator or by nothing |
| Inspector.Contains | LGCInspector2/ViewModels/MainViewModel.cs:154-158 | ordinal String.Contains: the tag occurs at some index of the name; stated by CameraDispatch and CameraExamples |
| Inspector.CameraOf | LGCInspector2/ViewModels/MainViewModel.cs:154-168 | the engine chosen by the file name's tag, camera 1 tested first; stated by CameraDispatch and CameraExamples |
| Inspector.CameraDispatch | LGCInspector2/ViewModels/MainViewModel.cs:154-168 | a name with `_Lucid-1_` goes to camera 1 (even if it also has `_Lucid-2_`); one with only `_Lucid-2_` to camera 2; one with neither is unmatched |
| Inspector.CameraExamples | LGCInspector2/ViewModels/MainViewModel.cs:154-168 | "Line_Lucid-1_0007.jpg" goes to camera 1, a name holding both tags goes to camera 1, "frame_0007.jpg" is unmatched |
| Inspector.VerdictFor | LGCInspector2/ViewModels/MainViewModel.cs:175-187 | the presence gate, then Predict for a present product; stated by ResultCases |
| Inspector.ResultOf | LGCInspector2/ViewModels/MainViewModel.cs:149-215 | how one file ends: skipped, copied with a verdict and camera, or failed; stated by ResultCases |
| Inspector.Step | LGCInspector2/ViewModels/MainViewModel.cs:149-215 | one iteration's effect on the counters, the status and the folders; stated by StepAccounting |
| Inspector.ResultCases | LGCInspector2/ViewModels/MainViewModel.cs:149-215 | a file is skipped iff its name matches no camera; an empty frame is copied as OK with no prediction; a present product gets Predict's verdict; OK goes to Result_OK and NG or ERROR to Result_NG; the camera recorded is the dispatched one |
| Inspector.StepAccounting | LGCInspector2/ViewModels/MainViewModel.cs:162-215 | a skip adds one to the progress and keeps the percentage and both folders; a failure keeps the progress, the percentage and both folders and reports its error; a copy adds one, sets the percentage from the new count and writes exactly one entry, into the folder its verdict selects |
| Inspector.Percent | LGCInspector2/ViewModels/MainViewModel.cs:196 | ProgressPercent as the floor of current / total * 100; stated by PercentBounds |
| Inspector.PercentBounds | LGCInspector2/ViewModels/MainViewModel.cs:196 | the percentage lies in [0, 100] and is 100 exactly when the progress equals the total |
| Inspector.Run | LGCInspector2/ViewModels/MainViewModel.cs:147-216 | the loop as a fold of Step over the image files; stated by RunCountsProgress, RunBounds, RunCompletes and RunFolders, and tied to the loop method by InspectFiles |
| Inspector.TallyPartitions | LGCInspector2/ViewModels/MainViewModel.cs:147-216 | each file is exactly one of skipped, copied or failed: the three counts sum to the number of files |
| Inspector.RunCountsProgress | LGCInspector2/ViewModels/MainViewModel.cs:162-197 | after the loop CurrentProgress is the number of skipped plus copied files; failed files are not counted |
| Inspector.RunBounds | LGCInspector2/ViewModels/MainViewModel.cs:144-197 | after any prefix of the loop 0 <= CurrentProgress <= files processed <= TotalCount and ProgressPercent <= 100 |
| Inspector.RunCompletes | LGCInspector2/ViewModels/MainViewModel.cs:194-196 | when every file is counted and the last one is copied, ProgressPercent ends at 100 |
| Inspector.SkippedLastFileExample | LGCInspector2/ViewModels/MainViewModel.cs:164-197 | a copied file followed by a skipped one, of two, ends with CurrentProgress 2 and ProgressPercent 50, which is why RunCompletes needs a copied last file |
| Inspector.RunFolders | LGCInspector2/ViewModels/MainViewModel.cs:189-192 | the folders after the loop are the folders before it overwritten by the loop's copies; nothing is removed |
| Inspector.WritesRouting | LGCInspector2/ViewModels/MainViewModel.cs:189-192 | every copied file reaches the folder its verdict selects under its file name, and every entry written is a batch file of that name whose verdict selects that folder |
| Inspector.UncopiedFileWrittenNowhere | LGCInspector2/ViewModels/MainViewModel.cs:162-215 | with distinct file names, a skipped or failed file is written to neither folder |
| Inspector.CallsAreDispatched | LGCInspector2/ViewModels/MainViewModel.cs:151-187 | engine calls are made only for batch files, on the camera their name selects, never for a skipped file, and a prediction only after the presence gate passes |
| Inspector.RerunIsIdempotent | LGCInspector2/ViewModels/MainViewModel.cs:189-192 | running the batch again over its own result folders leaves both folders unchanged |
| Inspector.OutputFolders.Copy | LGCInspector2/ViewModels/MainViewModel.cs:190-192 | an overwriting copy into Result_OK or Result_NG under the given name; the other folder is unchanged |
| Inspector.MainViewModel.constructor | LGCInspector2/ViewModels/MainViewModel.cs:57-71 | two distinct new engines with no session, counters at zero, not busy, the initial hint message |
| Inspector.Starts | LGCInspector2/ViewModels/MainViewModel.cs:95-109 | the two early-return guards: a non-empty existing source folder and both model files present; stated by RunInspection |
| Inspector.GuardStatus | LGCInspector2/ViewModels/MainViewModel.cs:95-109 | the message of the first failing guard, the folder check before the model-file check; stated by RunInspection |
| Inspector.FinalStatus | LGCInspector2/ViewModels/MainViewModel.cs:125-225 | the status a started run ends with: the camera-1 load failure, then the camera-2 load failure, then a listing failure, otherwise the completion message with TotalCount; stated by RunInspection and ExecuteRunInspection |
| Inspector.MainViewModel.RunInspection | LGCInspector2/ViewModels/MainViewModel.cs:93-236 | a failed guard sets its message and changes nothing else; a started run ends not busy with both sessions released and the completion or fatal-error status; a load or listing failure leaves the counters reset and the folders alone; otherwise TotalCount, the counters, the folders and the engine calls are those of the fold over the image files |
| Inspector.MainViewModel.InspectFiles | LGCInspector2/ViewModels/MainViewModel.cs:147-216 | the loop's final counters, status and folders equal Run over the image files, and its engine calls are Calls over them |
| Inspector.MainViewModel.InspectFile | LGCInspector2/ViewModels/MainViewModel.cs:149-215 | one iteration's new state is Step applied to the old state with the file's result, and exactly its engine calls are logged |
| Inspector.MainViewModel.CanRunInspection | LGCInspector2/ViewModels/MainViewModel.cs:63 | the CanExecute lambda `() => !IsBusy`; stated by ExecuteRunInspection |
| Inspector.MainViewModel.ExecuteRunInspection | LGCInspector2/ViewModels/MainViewModel.cs:63 | while a run is in progress the command changes nothing; an idle command runs the batch: a failed guard leaves its message and the folders untouched, a started run ends not busy with both sessions released and FinalStatus, and when the models load and the listing succeeds TotalCount, the counters and the folders are those of BatchRun; no run is left in progress |

## Left out

- The contents of OpenCV's `ImRead`, `Resize` (bicubic) and `MeanStdDev` are
  foreign code. The model receives the grey statistics and the resized raster
  as inputs. An empty colour decode is modelled as the error that resizing
  it throws.
- The ONNX runtime is foreign code. A session's `Run` is a function from the
  flat tensor to its first output. Reading the input metadata, building the
  named input and choosing the first result are not modelled.
- `float` and `double` arithmetic is modelled as exact `real` arithmetic.
  The thresholds 50.0, 5.0 and 0.8f and the division by 255 are exact.
- Inspector.Percent: `(int)((double)CurrentProgress / TotalCount * 100)` is
  modelled as the integer floor `current * 100 / total`. Double rounding can
  make the source one lower for some inputs (29 of 100 can give 28). The
  bounds and the 100-at-completion property hold in both.
- The commented-out ImageNet normalisation (and the unused `_mean` and
  `_std` fields) and the commented-out score log are not modelled.
- Inference.InferenceEngine.Predict: the outcome is stated only for an
  engine with no session or an open one. After `Dispose` the reference is
  kept, marked closed, and the contract says nothing about the result,
  because what the ONNX runtime does with a disposed session is foreign
  code. Exceptions thrown by `Run` on an open session are not modelled
  either: the network is a total function.
- Inference.InferenceEngine.GetRawScore: the same restriction as Predict, for
  the same reason.
- `SelectFolder` and the folder dialog are not modelled, because they are UI.
  `SourceDir` is an input, and the empty string stands for null.
- The stopwatch, the UI timer and `ElapsedTime` are not modelled, because
  they depend on the clock. The completion status carries the total but not
  the elapsed time.
- `Task.Run`, `async`/`await`, property-change notification and the
  cross-thread updates of observable properties are not modelled. The run is
  modelled as sequential.
- Inspector.MainViewModel.ExecuteRunInspection: because the model is
  sequential, no method returns with `IsBusy` still true. The busy case of
  the `!IsBusy` guard is stated but cannot arise. A second command that
  arrives while a run is awaiting is not modelled.
- The status texts are Korean strings. They are modelled as one `Status`
  case per message.
- `Directory.CreateDirectory` for the two result folders is not modelled
  as its own step. An exception from it and an exception from listing the
  source folder are raised at the same point, before `TotalCount` is set.
  Both are modelled as a failed listing, which gives the fatal-error status.
  Folders are represented only by their contents.
- Inspector.FileName splits on `\` and `/` only. The volume separator of
  `Path.GetFileName` is not modelled.
- Destination names are compared exactly. Windows' case-insensitive file
  names (two names differing only in case overwriting each other) are not
  modelled.
- Errors thrown from inside the presence gate, such as an exception from
  `ImRead`, are not modelled. The gate treats an undecodable file as empty,
  as the code's `Empty()` check does. Copy failures and Predict errors are
  modelled and are caught per file.
