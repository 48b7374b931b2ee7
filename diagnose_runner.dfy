/** The diagnosis job the worker runs for a queued diagnostic task: it
    marks the task started, reconstructs each chunk of the window around
    the most anomalous chunk of the upload with the trained model, saves
    the diagnosed chunks and marks the task successful; an exception marks
    the task failed.

    The engine (transformer, datasource, detective) is outside the model:
    whether building it raised, the test samples it reads, how it cuts and
    dates a chunk of a sample, what it reconstructs from a chunk and the
    window `calculate_most_anomalous_chunks` computes are parameters.
 */
module DiagnoseRunner {
  import opened Wrappers
  import opened Json
  import opened TaskStatus
  import opened Entities
  import opened Store
  import opened Chunks
  import TrainingService
  import DiagnosticService

  /** What the job raises when the task or the upload is missing. */
  const NotFoundError: Error := Exception("No task of upload file found!")

  /** What reading the training of a missing detection task raises. */
  const NoDetectionError: Error := AttributeError("'NoneType' object has no attribute 'training_task_id'")

  /** What `set_task_status` raises in the failure handler when the task lookup found nothing. */
  const NoTaskIdError: Error := AttributeError("'NoneType' object has no attribute 'id'")

  function StartedMessage(code: string): string
  {
    "Diagnostic for " + code + " has started!"
  }

  function CompletedMessage(code: string): string
  {
    "Diagnostic for " + code + " has completed successfully!"
  }

  /** The engine's operations on a test sample of type `S`. */
  datatype Engine<-S> = Engine(
    getChunk: (S, int) -> NdArray,
    chunkTimedelta: (S, int) -> int,
    diagnose: NdArray -> NdArray)

  /** The diagnosis of one chunk: its index, its offset, the reconstruction
      and the chunk itself, both as matrices when they were vectors. */
  function ChunkResult<S>(engine: Engine<S>, sample: S, index: int): (r: DiagnosticChunk)
    ensures r.chunkIndex == index && r.chunkTimedelta == engine.chunkTimedelta(sample, index)
    ensures r.original == EnsureDimension(engine.getChunk(sample, index))
    ensures r.synthetic == EnsureDimension(engine.diagnose(engine.getChunk(sample, index)))
  {
    var chunk := engine.getChunk(sample, index);
    DiagnosticChunk(index, engine.chunkTimedelta(sample, index), EnsureDimension(engine.diagnose(chunk)), EnsureDimension(chunk))
  }

  /** The diagnoses of the chunks in the window, one per index, in order. */
  function ChunkResults<S>(engine: Engine<S>, sample: S, indices: seq<int>): (r: seq<DiagnosticChunk>)
    ensures |r| == |indices|
    ensures forall i :: 0 <= i < |r| ==> r[i] == ChunkResult(engine, sample, indices[i])
  {
    seq(|indices|, i requires 0 <= i < |indices| => ChunkResult(engine, sample, indices[i]))
  }

  /** The loop of `DiagnoseTask.run` over the chunk window. */
  method DiagnoseChunks<S>(engine: Engine<S>, sample: S, indices: seq<int>) returns (results: seq<DiagnosticChunk>)
    ensures results == ChunkResults(engine, sample, indices)
  {
    results := [];
    var i := 0;
    while i < |indices|
      invariant 0 <= i <= |indices|
      invariant results == ChunkResults(engine, sample, indices[..i])
    {
      var index := indices[i];
      var chunk := engine.getChunk(sample, index);
      var timedelta := engine.chunkTimedelta(sample, index);
      var synthetic := engine.diagnose(chunk);
      synthetic := EnsureDimension(synthetic);
      chunk := EnsureDimension(chunk);
      results := results + [DiagnosticChunk(index, timedelta, synthetic, chunk)];
      assert indices[..i + 1][..i] == indices[..i];
      i := i + 1;
    }
    assert indices[..i] == indices;
  }

  /** Consecutive chunk indices make a single run: each chunk may follow
      the one before it. */
  lemma {:induction false} ConsecutiveIsOneRun(s: seq<DiagnosticChunk>)
    requires forall i :: 0 < i < |s| ==> s[i].chunkIndex == s[i - 1].chunkIndex + 1
    ensures Groups(s) == [s]
    decreases |s|
  {
    if s != [] {
      var p := s[..|s| - 1];
      ConsecutiveIsOneRun(p);
      assert s == p + [s[|s| - 1]];
    }
  }

  /** The diagnoses of a window of consecutive chunks are already sorted
      by chunk index, and grouping them as `group_adjacent_chunks` does
      gives a single run holding all of them. */
  lemma WindowIsOneRun<S>(engine: Engine<S>, sample: S, lo: int, hi: int)
    ensures var r := ChunkResults(engine, sample, Range(lo, hi));
      SortByIndex(r) == r && Groups(SortByIndex(r)) == [r]
  {
    var r := ChunkResults(engine, sample, Range(lo, hi));
    assert forall i, j :: 0 <= i < j < |r| ==> r[i].chunkIndex == lo + i < lo + j == r[j].chunkIndex;
    SortIsDetermined(r, r);
    ConsecutiveIsOneRun(r);
  }

  /** `DiagnoseTask.run` after the STARTED status: the diagnosed chunks,
      or the exception raised on the way. `detection` is the detection
      task the diagnostic task belongs to. */
  function Diagnose<S>(detection: DetectionTask?, root: string, engineError: Option<Error>, samples: seq<S>,
                       window: Result<seq<int>>, engine: Engine<S>): (r: Result<seq<DiagnosticChunk>>)
    reads detection, if detection == null then {} else {detection.trainingTask}
  {
    if detection == null then Err(NoDetectionError)
    else
      var rewriteError := TrainingService.RootFolderRewrite(detection.trainingTask.configuration, root).1;
      if rewriteError.Some? then Err(rewriteError.value)
      else if engineError.Some? then Err(engineError.value)
      else if samples == [] then Err(IndexError)
      else if window.Err? then Err(window.error)
      else Ok(ChunkResults(engine, samples[0], window.value))
  }

  /** The job succeeds exactly when the diagnostic task has its detection
      task, the training's model paths are strings, the engine does not
      raise, the upload has a test sample and the window is found; it then
      holds one diagnosis per chunk of the window of the first sample. */
  lemma DiagnoseSucceedsWhen<S>(detection: DetectionTask?, root: string, engineError: Option<Error>, samples: seq<S>,
                                window: Result<seq<int>>, engine: Engine<S>)
    ensures var r := Diagnose(detection, root, engineError, samples, window, engine);
      && (r.Ok? <==>
            && detection != null
            && var c := detection.trainingTask.configuration;
            && Get(c, LoadPathPath).Ok? && Get(c, LoadPathPath).value.Str?
            && Get(c, SavePathPath).Ok? && Get(c, SavePathPath).value.Str?
            && engineError.None? && samples != [] && window.Ok?)
      && (r.Ok? ==>
            && |r.value| == |window.value|
            && forall i :: 0 <= i < |r.value| ==>
                 r.value[i].chunkIndex == window.value[i] &&
                 r.value[i].original == EnsureDimension(engine.getChunk(samples[0], window.value[i])))
  {
    if detection != null {
      assert LoadPathPath[0] != ["calibration"][0] && SavePathPath[0] != ["calibration"][0];
      TrainingService.RootFolderRewriteSucceeds(detection.trainingTask.configuration, root, ["calibration"]);
    }
  }

  /** With the window `calculate_most_anomalous_chunks` computes, a
      successful job holds 2 * radius + 1 diagnoses (none for a negative
      radius), for ascending consecutive chunks centred on the first chunk
      with the maximal probability, moved to chunk 1 when that is chunk 0. */
  lemma DiagnosesTheWindow<S>(detection: DetectionTask?, root: string, engineError: Option<Error>, samples: seq<S>,
                              engine: Engine<S>, calibrated: seq<real>, uncalibrated: seq<real>,
                              k: real, x0: real, anomalyPrior: real, maxValue: real, radius: int)
    ensures var probabilities := if UseCalibration(k, x0, anomalyPrior) then calibrated else uncalibrated;
      var window := MostAnomalousChunks(calibrated, uncalibrated, k, x0, anomalyPrior, maxValue, radius);
      var r := Diagnose(detection, root, engineError, samples, window, engine);
      && (maxValue !in probabilities ==> r.Err?)
      && (r.Ok? ==>
            var idx := FirstIndex(probabilities, maxValue).value;
            var centre := if idx == 0 then 1 else idx;
            && |r.value| == (if radius >= 0 then 2 * radius + 1 else 0)
            && forall i :: 0 <= i < |r.value| ==> r.value[i].chunkIndex == centre - radius + i)
  {
    var probabilities := if UseCalibration(k, x0, anomalyPrior) then calibrated else uncalibrated;
    var window := MostAnomalousChunks(calibrated, uncalibrated, k, x0, anomalyPrior, maxValue, radius);
    DiagnoseSucceedsWhen(detection, root, engineError, samples, window, engine);
    if maxValue in probabilities {
      ChunkWindowShape(probabilities, maxValue, radius);
    }
  }

  /** `DiagnoseTask.run` once the task and its upload are found. */
  method RunFound<S>(registry: Registry, t: DiagnosticTask, upload: Datasource, code: string, root: string,
                     engineError: Option<Error>, samples: seq<S>, window: Result<seq<int>>, engine: Engine<S>, now: int)
    returns (e: Option<Error>)
    modifies registry`journal, t`statuses
    ensures var r := Diagnose(t.detectionTask, root, engineError, samples, window, engine);
      var started := StatusSaved(Diagnostic, t.id, Started, Some(StartedMessage(code)));
      && (r.Err? ==>
            && e == Some(r.error)
            && t.statuses == old(t.statuses) + [StatusRecord(Started, Some(StartedMessage(code)), now)]
            && registry.journal == old(registry.journal) + [started])
      && (r.Ok? ==>
            && e.None?
            && t.statuses == old(t.statuses)
                 + [StatusRecord(Started, Some(StartedMessage(code)), now),
                    StatusRecord(Successful, Some(CompletedMessage(code)), now)]
            && registry.journal == old(registry.journal)
                 + [started,
                    DiagnosticResultSaved(DiagnosticResultRow(upload.companyId, t.id, upload.uploadCode, code, r.value)),
                    StatusSaved(Diagnostic, t.id, Successful, Some(CompletedMessage(code)))])
  {
    DiagnosticService.SetTaskStatus(registry, t, Started, Some(StartedMessage(code)), now);
    var detection := t.detectionTask;
    if detection == null {
      return Some(NoDetectionError);
    }
    var rewriteError := TrainingService.RootFolderRewrite(detection.trainingTask.configuration, root).1;
    if rewriteError.Some? {
      return rewriteError;
    }
    if engineError.Some? {
      return engineError;
    }
    if samples == [] {
      return Some(IndexError);
    }
    var sample := samples[0];
    if window.Err? {
      return Some(window.error);
    }
    var results := DiagnoseChunks(engine, sample, window.value);
    var row := DiagnosticResultRow(upload.companyId, t.id, upload.uploadCode, code, results);
    registry.journal := registry.journal + [DiagnosticResultSaved(row)];
    DiagnosticService.SetTaskStatus(registry, t, Successful, Some(CompletedMessage(code)), now);
    e := None;
  }

  /** `DiagnoseTask.run` for the upload and the detection task code. A
      missing task or upload raises before anything is recorded. */
  method Run<S>(registry: Registry, uploadCode: string, code: string, root: string,
                engineError: Option<Error>, samples: seq<S>, window: Result<seq<int>>, engine: Engine<S>, now: int)
    returns (e: Option<Error>)
    modifies registry`journal, registry.diagnosticTasks`statuses
    ensures registry.DiagnosticByCode(code) == old(registry.DiagnosticByCode(code))
    ensures var t := old(registry.DiagnosticByCode(code));
      var upload := UploadByCode(registry.datasources, uploadCode);
      && (t == null || upload.None? ==>
            && e == Some(NotFoundError) && registry.journal == old(registry.journal)
            && forall u :: u in registry.diagnosticTasks ==> u.statuses == old(u.statuses))
      && (t != null && upload.Some? ==>
            var r := Diagnose(t.detectionTask, root, engineError, samples, window, engine);
            && (r.Err? ==>
                  && e == Some(r.error)
                  && t.statuses == old(t.statuses) + [StatusRecord(Started, Some(StartedMessage(code)), now)]
                  && registry.journal == old(registry.journal)
                       + [StatusSaved(Diagnostic, t.id, Started, Some(StartedMessage(code)))])
            && (r.Ok? ==>
                  && e.None?
                  && t.statuses == old(t.statuses)
                       + [StatusRecord(Started, Some(StartedMessage(code)), now),
                          StatusRecord(Successful, Some(CompletedMessage(code)), now)]
                  && registry.journal == old(registry.journal)
                       + [StatusSaved(Diagnostic, t.id, Started, Some(StartedMessage(code))),
                          DiagnosticResultSaved(DiagnosticResultRow(upload.value.companyId, t.id, uploadCode, code, r.value)),
                          StatusSaved(Diagnostic, t.id, Successful, Some(CompletedMessage(code)))])
            && forall u :: u in registry.diagnosticTasks && u != t ==> u.statuses == old(u.statuses))
  {
    var upload := UploadByCode(registry.datasources, uploadCode);
    var t := registry.DiagnosticByCode(code);
    if t == null || upload.None? {
      return Some(NotFoundError);
    }
    e := RunFound(registry, t, upload.value, code, root, engineError, samples, window, engine, now);
  }

  /** `DiagnoseTask.on_failure`: the exception's text becomes a FAILED
      status of the diagnostic task with this code (the job's second
      argument); with no such task the handler itself raises and nothing is
      recorded. */
  method OnFailure(registry: Registry, code: string, exception: Error, now: int) returns (e: Option<Error>)
    modifies registry`journal, registry.diagnosticTasks`statuses
    ensures var t := old(registry.DiagnosticByCode(code));
      && (t == null ==>
            && e == Some(NoTaskIdError) && registry.journal == old(registry.journal)
            && forall u :: u in registry.diagnosticTasks ==> u.statuses == old(u.statuses))
      && (t != null ==>
            && e.None?
            && t.statuses == old(t.statuses) + [StatusRecord(Failed, Some(Describe(exception)), now)]
            && registry.journal == old(registry.journal) + [StatusSaved(Diagnostic, t.id, Failed, Some(Describe(exception)))]
            && forall u :: u in registry.diagnosticTasks && u != t ==> u.statuses == old(u.statuses))
  {
    var t := registry.DiagnosticByCode(code);
    if t == null {
      return Some(NoTaskIdError);
    }
    DiagnosticService.SetTaskStatus(registry, t, Failed, Some(Describe(exception)), now);
    e := None;
  }

  /** The worker running the job: `run`, then `on_failure` when it raised.
      A task whose upload exists ends with STARTED followed by SUCCESSFUL,
      or by FAILED with the exception's text; a task whose upload is missing
      ends FAILED with the not-found text; a missing task gets no status.
      No other diagnostic task changes. */
  method Execute<S>(registry: Registry, uploadCode: string, code: string, root: string,
                    engineError: Option<Error>, samples: seq<S>, window: Result<seq<int>>, engine: Engine<S>, now: int)
    modifies registry`journal, registry.diagnosticTasks`statuses
    ensures var t := old(registry.DiagnosticByCode(code));
      var upload := UploadByCode(registry.datasources, uploadCode);
      && (t == null ==>
            && registry.journal == old(registry.journal)
            && forall u :: u in registry.diagnosticTasks ==> u.statuses == old(u.statuses))
      && (t != null && upload.None? ==>
            && t.statuses == old(t.statuses) + [StatusRecord(Failed, Some(Describe(NotFoundError)), now)]
            && registry.journal == old(registry.journal)
                 + [StatusSaved(Diagnostic, t.id, Failed, Some(Describe(NotFoundError)))])
      && (t != null && upload.Some? ==>
            var r := Diagnose(t.detectionTask, root, engineError, samples, window, engine);
            var started := StatusSaved(Diagnostic, t.id, Started, Some(StartedMessage(code)));
            && t.Status() == Some(if r.Ok? then Successful else Failed)
            && t.statuses == old(t.statuses)
                 + [StatusRecord(Started, Some(StartedMessage(code)), now),
                    if r.Ok? then StatusRecord(Successful, Some(CompletedMessage(code)), now)
                    else StatusRecord(Failed, Some(Describe(r.error)), now)]
            && registry.journal == old(registry.journal)
                 + (if r.Ok? then
                      [started,
                       DiagnosticResultSaved(DiagnosticResultRow(upload.value.companyId, t.id, uploadCode, code, r.value)),
                       StatusSaved(Diagnostic, t.id, Successful, Some(CompletedMessage(code)))]
                    else [started, StatusSaved(Diagnostic, t.id, Failed, Some(Describe(r.error)))]))
    ensures forall u :: u in registry.diagnosticTasks && u != old(registry.DiagnosticByCode(code)) ==>
      u.statuses == old(u.statuses)
  {
    ghost var t := registry.DiagnosticByCode(code);
    var e := Run(registry, uploadCode, code, root, engineError, samples, window, engine, now);
    if e.Some? {
      var _ := OnFailure(registry, code, e.value, now);
    }
  }
}
