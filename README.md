# Anomaly detection service for aerospace flight data — a Dafny model

The service trains anomaly-detection models on uploaded flight recordings.
It runs trained models over new uploads (detections) and reconstructs the
most anomalous stretch of a flight for inspection (diagnostics). Each of the
three kinds of task has a log of status rows: QUEUED, STARTED, IN PROGRESS,
SUCCESSFUL and FAILED. The model covers the following:

- the three task entities and their derived properties: current status,
  completion, running time, FFT domain, save path and data folders (`Entities`, `TaskStatus`);
- the training configuration. It is built from the company configuration
  and the datasource metadata by a deep dictionary merge, the submitted
  parameters are laid over it, and its model paths are rewritten under the
  training root folder (`Json`, `TrainingService`, `TrainingView`);
- the training submission endpoint: its checks, its error responses and
  the order of its writes (`TrainingView.Submit`);
- the detection and diagnostic services: creating tasks, recording
  statuses, queueing the diagnosis, and reading back the calibration
  (`DetectionService`, `DiagnosticService`);
- the three worker jobs and their failure handlers (`TrainRunner`,
  `DetectRunner`, `DiagnoseRunner`);
- the diagnostic chunk machinery: the window around the most anomalous
  chunk, sorting the diagnosed chunks, grouping them into runs of adjacent
  chunks, and concatenating a run side by side (`Chunks`);
- the arithmetic behind the diagnostic plots (`DiagnosticView`);
- the Python semantics the code relies on: `int()`, `str()`, `//`,
  `os.path.join`, `timedelta.seconds` and dictionary subscripts (`PyInt`,
  `Paths`, `TaskStatus`, `Json`).

The database is a `Store.Registry` object. It holds the task rows, the
uploaded files and a journal of every write and every job put on the queue.
Services and jobs are methods that change it. Their contracts state the new
status log and the new journal in full. An exception is a `Wrappers.Error`
value that carries its Python class and message. The message becomes the
text of the FAILED status that the failure handler records.

Things the code does as written, which the model keeps:

- A training job whose task code matches nothing logs the problem and then
  raises at the first status update, so it records nothing.
- A detection job reads `upload_code` of the task before it checks that the
  task exists, so a missing task raises an AttributeError.
- A detection whose upload is gone ends quietly, without a status.
- Chunk index 0 is falsy, so any chunk may join a run that ends with chunk 0.
- `timedelta.seconds` is not the total duration: a run of a day and five
  seconds reads as five seconds.

## Model

| member | source | states |
|---|---|---|
| TaskStatus.ValueInjective | app/entities/base.py:66-71 | distinct task states are stored as distinct strings |
| TaskStatus.CurrentState | app/entities/training.py:82-86 | None exactly for an empty log, otherwise the state of the last row |
| TaskStatus.AppendedIsCurrent | app/entities/training.py:82-90 | after a row is appended, it is the current state, and the log is completed exactly when that row is SUCCESSFUL or FAILED |
| TaskStatus.CompletedIff | app/entities/training.py:88-90 | a log is completed exactly when it is non-empty and its last row is SUCCESSFUL or FAILED |
| TaskStatus.Seconds | app/entities/training.py:102 | `timedelta.seconds` always lies in [0, 86400) |
| TaskStatus.SecondsWithinADay | app/entities/detection.py:90-95 | for an interval shorter than a day, the result is the elapsed whole seconds |
| TaskStatus.SecondsIsNotTotal | app/entities/detection.py:90-95 | a day and five seconds reads as 5; a negative microsecond reads as 86399 |
| TaskStatus.RunningTime | app/entities/detection.py:90-95 | None exactly for an empty log |
| TaskStatus.FirstInProgress | app/entities/training.py:96-99 | the first IN PROGRESS row, and None exactly when there is none |
| TaskStatus.TrainingRunningTime | app/entities/training.py:92-102 | None exactly for an empty log |
| TaskStatus.TrainingFallsBackToFirst | app/entities/training.py:92-102 | without an IN PROGRESS row, the training running time is measured from the first row |
| TaskStatus.TrainingCountsFromInProgress | app/entities/training.py:92-102 | for QUEUED, STARTED, IN PROGRESS, SUCCESSFUL the training time runs from IN PROGRESS, whereas the other tasks' time runs from QUEUED |
| TaskStatus.EverSuccessfulIsWeaker | app/entities/detection.py:73-78 | the "any SUCCESSFUL row" filter admits every currently successful task, and also a task that failed after succeeding |
| PyInt.Digits | app/entities/training.py:68 | `str(n)` is a non-empty string of decimal digits |
| PyInt.ParseInt | app/views/training.py:142-143 | `int(s)` fails only with a ValueError |
| PyInt.DigitsRoundTrip | app/views/training.py:31 | the decimal digits of n read back as n |
| PyInt.ParseShow | app/views/training.py:31 | `int(str(i)) == i` for every integer |
| PyInt.FloorDiv | app/views/training.py:171 | `a // b` is the floor of the quotient for either sign of b |
| Paths.JoinRelative | app/services/training.py:160 | joining a relative path glues it to the first part |
| Paths.JoinAssociative | app/entities/training.py:68 | `join(a, b, c)` is the same grouped either way |
| Paths.JoinName | app/services/training.py:115 | joining one component adds a separator only when needed; the result is non-empty and has no trailing separator |
| Paths.SplitLastComponent | app/entities/training.py:66-72 | dirname and basename of `d/c` are `d` and `c` |
| Json.Get | app/services/training.py:157-158 | an empty path gives the document; a failed subscript is a KeyError, or a TypeError with Python's text for a string or another non-dict |
| Json.GetConcat | app/services/training.py:117 | looking up `p + q` is looking up `q` in what `p` finds, or `p`'s error |
| Json.GetOr | app/services/training.py:144 | `.get(key, default)` succeeds exactly on a dictionary; it gives the default for a missing key and the value otherwise |
| Json.SetSucceeds | app/services/training.py:162 | an item assignment succeeds exactly when the parent path leads to a dictionary |
| Json.GetAfterSet | app/services/training.py:162 | after the assignment, the path reads the assigned value |
| Json.GetAfterSetElsewhere | app/services/training.py:167 | after the assignment, every path that diverges from it reads as before |
| Json.Merge | tests/unit/interpreter/test_merger.py:33-74 | the merge of two dictionaries has the union of their keys; anything else is overridden |
| Json.MergeEmptyOverride | tests/unit/interpreter/test_merger.py:33-74 | merging in an empty dictionary changes nothing |
| Json.MergeIntoEmpty | tests/unit/interpreter/test_merger.py:33-74 | merging into an empty dictionary gives the override |
| Json.MergeIdempotent | tests/unit/interpreter/test_merger.py:33-74 | merging a configuration with itself gives it back |
| Json.MergeOverrideTwice | tests/unit/interpreter/test_merger.py:33-74 | applying the same override twice is applying it once |
| Json.MergeKeepsOverrideLeaf | tests/unit/interpreter/test_merger.py:38 | a non-dictionary value of the override is what the merge holds at that path |
| Json.UntouchedMisses | tests/unit/interpreter/test_merger.py:33-47 | a path the override does not mention fails in it with a KeyError |
| Json.MergeKeepsBaseElsewhere | tests/unit/interpreter/test_merger.py:51-74 | a path the override does not touch finds the same in the merge as in the base |
| MergerExample.MergerTestCase | tests/unit/interpreter/test_merger.py:33-74 | the repository's merge test case holds for `Json.Merge` |
| Entities.ShowIsName | app/entities/training.py:68 | `str(company_id)` is a single path component |
| Entities.TrainingTask.constructor | app/views/training.py:195-204 | a new task holds the given fields and no status rows |
| Entities.TrainingTask.Status | app/entities/training.py:82-86 | None exactly without rows, otherwise the last row's state |
| Entities.TrainingTask.IsCompleted | app/entities/training.py:88-90 | completed exactly when the last row is SUCCESSFUL or FAILED |
| Entities.TrainingTask.RunningTime | app/entities/training.py:92-102 | the loop finds the training running time, measured from the first IN PROGRESS row |
| Entities.TrainingTask.HasFftEnabled | app/entities/training.py:104-109 | the stored `enable_fft`; True on a KeyError; a TypeError propagates |
| Entities.TrainingTask.TrainingSavePath | app/entities/training.py:111-116 | the stored save path; None on a KeyError; a TypeError propagates |
| Entities.TrainingTask.DirIsParentOfLocation | app/entities/training.py:66-72 | the data directory is the parent of the data location, whose last component is the task code |
| Entities.DetectionTask.constructor | app/services/detection.py:75-86 | a new task holds the given fields and no status rows |
| Entities.DetectionTask.Status | app/entities/detection.py:80-84 | None exactly without rows, otherwise the last row's state |
| Entities.DetectionTask.IsCompleted | app/entities/detection.py:86-88 | completed exactly when the last row is SUCCESSFUL or FAILED |
| Entities.DetectionTask.RunningTime | app/entities/detection.py:90-95 | seconds from the first row to the last; None without rows |
| Entities.DetectionTask.IsFrequencyDomain | app/entities/detection.py:97-99 | the training task's `has_fft_enabled` |
| Entities.DetectionTask.IsTimeDomain | app/entities/detection.py:101-103 | the negated truth value of the frequency flag, failing when it fails |
| Entities.SuccessfulByCompany | app/entities/detection.py:73-78 | exactly the company's tasks with some SUCCESSFUL row: every such task is returned and nothing else, which includes every currently successful one |
| Entities.DiagnosticTask.constructor | app/services/diagnostic.py:47-53 | a new task holds the given fields and no status rows |
| Entities.DiagnosticTask.Status | app/entities/diagnostic.py:48-51 | None exactly without rows, otherwise the last row's state |
| Entities.DiagnosticTask.IsCompleted | app/entities/diagnostic.py:53-57 | completed exactly when the last row is SUCCESSFUL or FAILED |
| Entities.DiagnosticTask.RunningTime | app/entities/diagnostic.py:59-64 | seconds from the first row to the last; None without rows |
| Entities.DiagnosticTask.IsFrequencyDomain | app/entities/diagnostic.py:66-68 | the detection task's flag; an AttributeError without a detection task |
| Entities.DiagnosticTask.IsTimeDomain | app/entities/diagnostic.py:70-72 | the detection task's time flag; an AttributeError without a detection task |
| Store.Registry.TrainingByCode | app/entities/training.py:78-80 | a task with that code, and null exactly when no task has it |
| Store.Registry.DetectionByCode | app/entities/detection.py:54-61 | a task with that code, and null exactly when no task has it |
| Store.Registry.DiagnosticByCode | app/entities/diagnostic.py:39-46 | a task with that detection task code, and null exactly when no task has it |
| Store.UploadByCode | app/services/datasource.py:8-12 | an upload with that code, and None exactly when none has it |
| TrainingService.SetTaskStatus | app/services/training.py:17-24 | appends one status row to the task and journals it, and does nothing else |
| TrainingService.SavePathIsDataLocation | app/services/training.py:115 | under the training root, the save path is the task's data location |
| TrainingService.CreateTrainingConfiguration | app/services/training.py:106-152 | succeeds exactly when `train_iters`, the meta's sensor and timestep counts and, for a retrain, the parent's save path and FFT flag can all be read; a missing `train_iters` is the error |
| TrainingService.OverrideLeaves | app/services/training.py:128-150 | every leaf of the override dictionary is what the merged configuration holds |
| TrainingService.FreshTrainingConfiguration | app/services/training.py:115-118 | without a parent, the task loads from where it saves, `company/code/code`, with the submitted FFT flag and the default learning rate |
| TrainingService.RetrainConfiguration | app/services/training.py:119-126 | a retrain loads from the parent's save path, inherits its FFT flag, and learns at a tenth of the rate |
| TrainingService.TransformerFromMeta | app/services/training.py:139-147 | sensor and timestep counts come from the datasource meta; the downsampling factor defaults to 4 |
| TrainingService.MissesOverride | app/services/training.py:150 | a path that misses the override's keys misses the override, whatever values it carries |
| TrainingService.KeepsCompanyConfiguration | app/services/training.py:150 | every path that misses the override's keys finds exactly what it finds in the company configuration |
| TrainingService.CompanyKeepsClassNames | app/services/training.py:150 | in particular the model's and the transformer's `class_name` and the batch size beside `train_iters` are kept |
| TrainingService.ObjectWithConfiguration.constructor | app/tasks/train.py:15-19 | the copy holds the task's configuration |
| TrainingService.JoinValue | app/services/training.py:160 | joining succeeds exactly for a string; otherwise a TypeError with the text of posixpath.join's argument check |
| TrainingService.RootPath | app/services/training.py:157-162 | one rewrite step succeeds exactly when the path holds a string |
| TrainingService.RootPathSucceeds | app/services/training.py:162 | assigning to a path that could be read cannot fail |
| TrainingService.UpdateRootFolder | app/services/training.py:155-169 | the object's new configuration and error are the rewrite of the old one |
| TrainingService.RootFolderRewriteSucceeds | app/services/training.py:155-169 | the rewrite succeeds exactly when both model paths are strings; both are then rooted, and every other path is unchanged |
| TrainingService.RootFolderRewriteFailure | app/services/training.py:155-169 | a failure at the load path leaves the configuration as it was; a failure at the save path comes after the load path was rooted |
| TrainingService.ReadSamples | app/services/training.py:52-61 | one reshaped flight per sample, in order |
| TrainingService.UpperLimit | app/services/training.py:71 | the training rows never exceed the total |
| TrainingService.SplitPartitions | app/services/training.py:67-90 | train and test rows put back together are the data; the training part is four fifths, rounded down |
| TrainingService.AvailableTrainingForDatasource | app/services/training.py:180-182 | exactly the successful tasks on the datasource's configuration |
| TrainingService.AvailableKeepsOrder | app/services/training.py:180-182 | the filter keeps the query's order |
| TrainingView.IntOf | app/views/training.py:142-143 | `int(v)`: an integer as is, a string parsed, a float truncated toward zero, a bool as 0 or 1, None or a dictionary a TypeError |
| TrainingView.EnableFftCoercion | app/views/training.py:145-146 | a falsy flag is kept; a truthy one becomes `bool(int(v))` and fails when `int` fails |
| TrainingView.EnableFftFromForm | app/views/training.py:145-146 | "0" turns FFT off, "1" on, "" is kept, "yes" raises |
| TrainingView.DatasourceConfigIdFilter | app/views/training.py:29-32 | the empty string selects -1, anything else is `int()` |
| TrainingView.DatasourceConfigIdRoundTrip | app/views/training.py:31 | an id written in decimal filters by that id |
| TrainingView.ValidOnly | app/views/training.py:42-43 | exactly the listed tasks whose current state is SUCCESSFUL |
| TrainingView.ValidOnlyKeepsOrder | app/views/training.py:42-43 | the filter keeps the listing's order |
| TrainingView.TimestepsFitTheImage | app/views/training.py:171 | the timesteps of all sensors fit into 784 times the downsampling factor |
| TrainingView.TimestepsFloor | app/views/training.py:171 | 8 sensors at factor 4 give 392; a negative count floors downwards |
| TrainingView.TimestepsFor | app/views/training.py:166-171 | zero sensors raise the integer ZeroDivisionError; a non-zero count gives the floor arithmetic |
| TrainingView.ParametersAreSet | app/views/training.py:225-244 | the configuration holds the three submitted values |
| TrainingView.ParametersKeepTheRest | app/views/training.py:225-244 | every path the parameters dictionary does not reach reads as before |
| TrainingView.ParametersKeepClassNames | tests/unit/interpreter/test_merger.py:54-64 | both `class_name` keys and the batch size survive adding the parameters |
| TrainingView.Validate | app/views/training.py:140-175 | the checks in the source's order: a failed conversion or a failed meta lookup raises; a taken name gives 400, an unknown configuration 404, a falsy sensor count 400; the timestep error propagates; no datasources gives 400 with the type's name; passing every check gives Proceed with exactly the converted values |
| TrainingView.ParentIdOf | app/views/training.py:204 | None for a falsy parent id, otherwise `int()` of it |
| TrainingView.SubmitPlan | app/views/training.py:137-204 | check errors and rejections come first; then the configuration is built, the parameters are laid over it, and the parent id is converted |
| TrainingView.SaveTask | app/views/training.py:195-213 | the new task with the submitted fields under the next id, then its QUEUED "Enqueued" row, then the train job |
| TrainingView.Submit | app/views/training.py:137-222 | nothing is written on a rejection or an exception, including the IntegrityError the save raises when any company already uses the name; otherwise the task with its fields, then QUEUED "Enqueued", then the train job, and the new name differs from every existing task's |
| TrainingView.TakenIsInUse | app/entities/training.py:42 | a name the company already uses is in use across all companies, so the global check covers the company check |
| Chunks.EnsureDimension | app/tasks/diagnose.py:14-19 | a vector of n becomes a 1 x n matrix; anything else is unchanged |
| Chunks.SortByIndex | app/services/diagnostic.py:115 | the sort is a permutation of the results |
| Chunks.SortByIndexCorrect | app/services/diagnostic.py:115 | sorted by chunk index and a permutation |
| Chunks.InsertIsStable | app/services/diagnostic.py:115 | inserting into a sorted list places the chunk after every chunk with the same index |
| Chunks.SortIsStable | app/services/diagnostic.py:115 | `sorted` is stable: chunks sharing an index keep their input order |
| Chunks.SortIsDetermined | app/services/diagnostic.py:115 | with distinct indices, any arrival order sorts to the same list |
| Chunks.Groups | app/services/diagnostic.py:113-128 | there is always at least one run, the one created first |
| Chunks.GroupsOfNothing | app/services/diagnostic.py:117-118 | no results give one empty run |
| Chunks.GroupsPartition | app/services/diagnostic.py:113-128 | the runs put back together are the sorted results |
| Chunks.GroupsShape | app/services/diagnostic.py:120-144 | each run's members are adjacent, and a run is closed exactly when the next chunk may not follow it |
| Chunks.GroupsNonEmpty | app/services/diagnostic.py:117-128 | for non-empty results, no run is empty |
| Chunks.GroupingExample | app/services/diagnostic.py:113-128 | chunks 1, 2, 3, 5, 7 in any order group as [1,2,3], [5], [7] |
| Chunks.ZeroJoinsAnything | app/services/diagnostic.py:139-140 | any chunk joins a run that ends with chunk 0 |
| Chunks.AdjacentChunkList.constructor | app/services/diagnostic.py:133-135 | an empty run without a latest index |
| Chunks.AdjacentChunkList.CanBeAdded | app/services/diagnostic.py:137-144 | true exactly for an empty run or when the chunk may follow the last member |
| Chunks.AdjacentChunkList.AddResult | app/services/diagnostic.py:146-148 | appends the chunk and remembers its index |
| Chunks.AdjacentChunkList.GetCumulativeResult | app/services/diagnostic.py:150-184 | None for an empty run; otherwise the first member's index and offset, with the members' matrices side by side |
| Chunks.SideBySideColumns | app/services/diagnostic.py:163-177 | member m occupies columns [m*w, (m+1)*w) of every row |
| Chunks.FillSideBySide | app/services/diagnostic.py:158-177 | the zero matrix filled block by block is the side-by-side concatenation |
| Chunks.CopyBlock | app/services/diagnostic.py:169 | the block lands at its columns, and every other cell is unchanged |
| Chunks.GroupAdjacentChunks | app/services/diagnostic.py:113-128 | distinct, fresh run objects holding the runs of the sorted results |
| Chunks.GroupSorted | app/services/diagnostic.py:117-128 | the loop builds one valid run object per run |
| Chunks.AddToRuns | app/services/diagnostic.py:120-126 | one iteration joins the chunk to the current run or opens a new one |
| Chunks.FirstIndex | app/services/diagnostic.py:100 | `list.index`: the first position of the value; a ValueError exactly when it is absent |
| Chunks.Range | app/services/diagnostic.py:106 | `range(lo, hi)`: hi - lo consecutive integers from lo |
| Chunks.ChunkWindow | app/services/diagnostic.py:100-106 | succeeds exactly when the maximum occurs among the probabilities; otherwise a ValueError |
| Chunks.ChunkWindowShape | app/services/diagnostic.py:100-106 | 2*radius+1 ascending indices centred on the first maximal chunk, never on chunk 0 |
| Chunks.MostAnomalousChunks | app/services/diagnostic.py:95-106 | calibrated probabilities are used only when k, x0 and the prior are all truthy |
| Chunks.FrequencyIndex | app/services/diagnostic.py:187-191 | the i-th frequency is i * downsample / duration, for i from 1; a zero duration raises |
| DetectionService.SetTaskStatus | app/services/detection.py:62-70 | appends one status row to the task and journals it, and does nothing else |
| DetectionService.CreateDetectionTask | app/services/detection.py:73-90 | the task with its fields under the next id, then QUEUED "Task has been enqueued" |
| DetectionService.TriggerDetection | app/services/detection.py:97-110 | upload code, datasource and company come from the upload, configuration from the training; the task gets the next id; no job is queued |
| DetectionService.LoadCalibrationValues | app/services/detection.py:128-140 | k, x0 and prior from a dictionary; three Nones when the calibration is absent or falsy; AttributeError when it is truthy but not a dictionary |
| DetectionService.CalibrationRoundTrip | app/services/detection.py:128-140 | what a training stores under `calibration` is read back exactly |
| DiagnosticService.SetTaskStatus | app/services/diagnostic.py:29-35 | appends one status row to the task and journals it, and does nothing else |
| DiagnosticService.TriggerDiagnostic | app/services/diagnostic.py:44-64 | a task under the detection task's code, then QUEUED with the enqueued message, then the diagnose job |
| TrainRunner.TrainedSucceeds | app/tasks/train.py:52-80 | once the paths are strings, persisting fails exactly when the calibration estimate failed, with its error |
| TrainRunner.TrainSucceeds | app/tasks/train.py:25-82 | the job succeeds exactly when both model paths are strings, the engine runs and calibration succeeds; a configuration is saved exactly then |
| TrainRunner.SavedConfiguration | app/tasks/train.py:52-80 | the save path is kept relative; on a retrain the load path is the save path; the calibration is what detection reads; other paths are unchanged |
| TrainRunner.RetrainLoadPaths | app/tasks/train.py:44-58 | a retrain first loads from the rooted parent path, then calibrates from the rooted own save path |
| TrainRunner.RunFound | app/tasks/train.py:25-82 | for the found task: STARTED; on success exactly the configuration Train computes is saved, then SUCCESSFUL; on an exception only STARTED and the configuration untouched; the load paths are the ones Train gives |
| TrainRunner.Run | app/tasks/train.py:25-82 | STARTED, then the configuration and SUCCESSFUL on success; only STARTED on an exception; nothing for a missing task; the task lookup by code is unchanged and every other task is untouched |
| TrainRunner.OnFailure | app/tasks/train.py:85-92 | FAILED with the exception's text; a missing task makes the handler raise |
| TrainRunner.Execute | app/tasks/train.py:25-92 | a missing task: no write at all. A found task: STARTED, then SUCCESSFUL or FAILED with the text; the configuration is the saved one or unchanged; the journal in full; every other task untouched |
| DetectRunner.DetectFailsWhen | app/tasks/detect.py:42-61 | detection fails exactly on bad model paths, an engine error, no test sample or a failed detection, in that order |
| DetectRunner.RunFound | app/tasks/detect.py:29-77 | IN PROGRESS; on success the result row, SUCCESSFUL "Task … has finished" and a queued diagnostic |
| DetectRunner.Run | app/tasks/detect.py:16-77 | a missing task raises; a missing upload ends quietly; otherwise RunFound's statuses, journal, new diagnostic task and error; the lookup is unchanged and other tasks are untouched |
| DetectRunner.OnFailure | app/tasks/detect.py:87-91 | FAILED with the exception's text; a missing task makes the handler raise |
| DetectRunner.Execute | app/tasks/detect.py:16-91 | a missing task or upload: no write at all. Otherwise IN PROGRESS, then SUCCESSFUL or FAILED with the text; the journal in full; a diagnostic task is added only on success; every other task untouched |
| DiagnoseRunner.ChunkResult | app/tasks/diagnose.py:63-74 | index, offset, and the reconstruction and the chunk as matrices |
| DiagnoseRunner.ChunkResults | app/tasks/diagnose.py:61-76 | one diagnosis per window index, in order |
| DiagnoseRunner.DiagnoseChunks | app/tasks/diagnose.py:61-76 | the loop computes the diagnoses of the window |
| DiagnoseRunner.ConsecutiveIsOneRun | app/services/diagnostic.py:113-128 | consecutive indices form one run |
| DiagnoseRunner.WindowIsOneRun | app/services/diagnostic.py:104-128 | a window's diagnoses sort to themselves and form a single run |
| DiagnoseRunner.DiagnoseSucceedsWhen | app/tasks/diagnose.py:38-76 | succeeds exactly with a detection task, string model paths, no engine error, a sample and a window; then one diagnosis per window chunk |
| DiagnoseRunner.DiagnosesTheWindow | app/tasks/diagnose.py:59-76 | with the window of `calculate_most_anomalous_chunks`, a successful job holds 2·radius+1 diagnoses of consecutive ascending chunks centred on the first maximal chunk (chunk 0 moved to 1); a maximum absent from the probabilities fails the job |
| DiagnoseRunner.RunFound | app/tasks/diagnose.py:30-94 | STARTED; on success the result row and SUCCESSFUL "completed successfully" |
| DiagnoseRunner.Run | app/tasks/diagnose.py:24-97 | a missing task or upload raises "No task of upload file found!" before any write |
| DiagnoseRunner.OnFailure | app/tasks/diagnose.py:106-114 | FAILED with the exception's text; a missing task makes the handler raise |
| DiagnoseRunner.Execute | app/tasks/diagnose.py:24-114 | a missing task: no write at all. A missing upload gives FAILED with that text; otherwise STARTED, then SUCCESSFUL or FAILED; the journal in full; every other task untouched |
| DiagnosticView.FftUpper | app/views/diagnostic.py:153-162 | the centre for an even length, one past it for an odd length |
| DiagnosticView.Slice | app/views/diagnostic.py:163 | Python slicing: an upper bound past the end stops at the end, a lower bound past the end gives an empty slice, and crossed bounds give an empty slice |
| DiagnosticView.PositiveSpectrumRows | app/views/diagnostic.py:152-163 | (n-1) div 2 rows, row j being signal row j+1; the constant term is never shown |
| DiagnosticView.FftBoundsExamples | app/views/diagnostic.py:153-163 | 8 or 7 rows give rows 1 to 3 |
| DiagnosticView.RowFrequencies | app/views/diagnostic.py:152-168 | signal row j+1 is shown at frequency (j+1) * downsample / duration; a zero duration raises |
| DiagnosticView.DownsampleFactor | app/views/diagnostic.py:57-58 | a failed section lookup is the error |
| DiagnosticView.DownsampleFactorDefault | app/views/diagnostic.py:132 | the stored factor, 4 when absent, failing without the section dictionary |
| DiagnosticView.ReadsSubmittedDownsample | app/views/diagnostic.py:132 | the plots read back the factor submitted with the training |
| DiagnosticView.TimePlotSampleRate | app/views/diagnostic.py:136 | succeeds exactly for a non-zero integer or True; 0 and False raise the integer ZeroDivisionError |
| DiagnosticView.TimePlotRateFloors | app/views/diagnostic.py:136 | with factor d the rate is the largest q with q*d <= original rate |

## Left out

- The database, the task queue and the file system are a journal of events in `Store.Registry`. Transactions, sessions and `os.makedirs` of the training data folder are not modelled.
- HTTP plumbing is not modelled: access tokens, pagination, content negotiation, response objects and `url_for`.
- The analysis engine is given as parameters. This covers the detective, the transformer, the datasource classes, the calibration estimate, DataView, pandas and numpy: whether building or running them raised, the samples, the per-chunk operations and the chunk window.
- The company lookup and the datasource class that the workers take from the company configuration belong to the engine.
- `set_correct_load_path_for_detection_and_diagnose` and `create_detective_from_configuration` are outside the modelled files.
- Detection and diagnosis rewrite the training's paths under the root folder on the loaded entity without saving it. Only that rewrite's error path is modelled.
- The task code comes from `uuid4` and is a parameter. The clock is a parameter `now`. The training root folder from `config` is a parameter `root`; the `config` module is not part of this model.
- `merge_dictionaries` (app/core/utils.py) is not part of this model. `Json.Merge` is defined from its test case and its uses, and is proved against that test.
- JSON lists never occur in the modelled configurations and are not part of `Json`.
- The plot endpoints' DataFrame loop is not modelled: renaming the sensor columns, `to_dict` and the time index strings. Neither are `sensor_detail` and `_build_chunk_data_for_frequency_plot`, which has no caller.
- `calculate_most_anomalous_chunks` is modelled from the maximal value onwards. Finding that value (resampling, `idxmax`, the neighbourhood maximum) belongs to DataView and is a parameter.
- Chunks.MostAnomalousChunks: k, x0 and the prior are reals, so a missing value (None) is represented by 0.0, which is just as falsy.
- Chunks.FrequencyIndex: does not round to two decimals, because floats are modelled as exact reals.
- TrainingService.UpperLimit: `int(n * 0.8)` is taken as `(4 * n) div 5`. The double nearest 0.8 is slightly above it, so rounding never falls below that.
- PyInt.ParseInt: rejects surrounding whitespace and digit-group underscores, which Python's `int()` accepts.
- TrainingView.TimestepsFor: a float sensor count is a TypeError here; Python would floor-divide it into a float.
- DiagnosticView.TimePlotSampleRate: a float downsampling factor is a TypeError here; Python would floor-divide it.
- Chunks.FirstIndex: the ValueError's text is "value is not in list". Python's text starts with the value's `repr`, as in "0.5 is not in list", and Python's shortest float `repr` is not modelled because floats are exact reals here.
- TrainingView.Submit: the IntegrityError's text is the database's message for the unique index on the name. SQLAlchemy's wrapping (the driver's class name, the statement and its parameters) is not modelled. The 60-character limit of the name column is not modelled either.
- DetectRunner.RunFound: the detection result's task code is a unique column (app/entities/detection.py:122). DetectRunner.Run and DetectRunner.Execute carry the same contract and share this gap. A second run for a task code whose result row exists makes `insert_result` raise IntegrityError in the source. The model saves a second result row and triggers another diagnostic instead. What the failure handler can then write depends on the session's state after the failed flush, and sessions are not modelled.
- DiagnoseRunner.RunFound: the diagnostic result's task code is a unique column (app/entities/diagnostic.py:93). DiagnoseRunner.Run and DiagnoseRunner.Execute carry the same contract and share this gap. Each trigger for the same detection adds another diagnostic task under the same code. A second diagnose job for that code therefore makes `save_result` raise IntegrityError in the source. The model saves a second result row and reports SUCCESSFUL instead. What the failure handler can then write depends on the session's state after the failed flush, and sessions are not modelled.
- Chunks.AdjacentChunkList.GetCumulativeResult: requires every member of the run to be a 2-D matrix of the first member's shape, which the source does not demand. The source makes an array with the first member's rows and its width times the number of members, and writes member i at columns [i·w, (i+1)·w), where w is that member's own width. A 1-D member raises IndexError on `shape[1]`. A narrower member lands at an offset that overlaps earlier members' columns and leaves later columns at zero. A wider member raises ValueError only when its slice runs past the end of the array; inside the array it overwrites columns of its neighbours without an error (members 2x2, 2x3 and 2x1: the 2x3 member lands at columns 3 to 5 of a 2x6 array). A member with one row is broadcast to every row; any other row count that differs from the first member's raises ValueError. None of these cases is modelled.
- The duplicate-code case of `one_or_none` and `one` (which raise MultipleResultsFound) is not modelled. Training and detection task codes are unique columns, so those lookups find at most one task. Diagnostic task codes are not unique: each trigger for the same detection adds another diagnostic task under that code. With two or more, `get_for_detection_task_code` raises MultipleResultsFound, while Store.Registry.DiagnosticByCode returns the first match.
- The diagnostic job's status updates and failure handler find the task by its detection task code, as the job does.
- `get_chunk` of an index outside the sample is the engine's concern. The index errors it may raise are not modelled.
- Timestamps are integer microseconds. `timedelta.seconds` is computed from them explicitly.
