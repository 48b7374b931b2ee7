/** The detection job the worker runs for a queued detection task: it
    marks the task in progress, runs the trained model on the uploaded
    flight, saves the result, marks the task successful and queues the
    diagnosis of the same upload; an exception marks the task failed.

    The engine (transformer, datasource, detective) is outside the model:
    whether building it raised, the samples it reads from the upload and
    what detection makes of a sample are parameters.
 */
module DetectRunner {
  import opened Wrappers
  import opened Json
  import opened TaskStatus
  import opened Entities
  import opened Store
  import opened DetectionService
  import TrainingService
  import DiagnosticService

  /** What reading `upload_code` of the missing task raises. */
  const NoTaskError: Error := AttributeError("'NoneType' object has no attribute 'upload_code'")

  /** What `set_task_status` raises in the failure handler when the task lookup found nothing. */
  const NoTaskIdError: Error := AttributeError("'NoneType' object has no attribute 'id'")

  /** The message of a finished detection's SUCCESSFUL status. */
  function FinishedMessage(code: string): string
  {
    "Task " + code + " has finished"
  }

  /** `DetectTask.run` after the IN PROGRESS status: the detection result
      of the first test sample of the upload, or the exception raised on
      the way. `configuration` is the training's stored configuration. */
  function Detect(configuration: Json, root: string, engine: Option<Error>, samples: seq<Json>,
                  detect: Json -> Result<Json>): Result<Json>
  {
    var rewriteError := TrainingService.RootFolderRewrite(configuration, root).1;
    if rewriteError.Some? then Err(rewriteError.value)
    else if engine.Some? then Err(engine.value)
    else if samples == [] then Err(IndexError)
    else detect(samples[0])
  }

  /** Detection fails exactly when the training's model paths are not both
      strings, the engine raises, the upload yields no test sample or
      detection of the first sample raises; the first of these is the
      exception. */
  lemma DetectFailsWhen(configuration: Json, root: string, engine: Option<Error>, samples: seq<Json>,
                        detect: Json -> Result<Json>)
    ensures var r := Detect(configuration, root, engine, samples, detect);
      && (r.Err? <==>
            !(Get(configuration, LoadPathPath).Ok? && Get(configuration, LoadPathPath).value.Str? &&
              Get(configuration, SavePathPath).Ok? && Get(configuration, SavePathPath).value.Str?)
            || engine.Some? || samples == [] || detect(samples[0]).Err?)
      && (TrainingService.RootFolderRewrite(configuration, root).1.None? && engine.None? && samples == [] ==>
            r == Err(IndexError))
      && (TrainingService.RootFolderRewrite(configuration, root).1.None? && engine.None? && samples != [] ==>
            r == detect(samples[0]))
  {
    assert LoadPathPath[0] != ["calibration"][0] && SavePathPath[0] != ["calibration"][0];
    TrainingService.RootFolderRewriteSucceeds(configuration, root, ["calibration"]);
  }

  /** What a successful detection writes, in order: IN PROGRESS, the result
      row, SUCCESSFUL, then the diagnostic task, its QUEUED status and the
      diagnose job. */
  function DetectedWrites(t: DetectionTask, upload: Datasource, code: string, result: Json, diagnosticId: int): seq<Event>
    reads t
  {
    [StatusSaved(Detection, t.id, InProgress, Some("Detection in progress")),
     DetectionResultSaved(DetectionResultRow(upload.companyId, t.uploadCode, code, result, t.id)),
     StatusSaved(Detection, t.id, Successful, Some(FinishedMessage(code))),
     TaskSaved(Diagnostic, diagnosticId),
     StatusSaved(Diagnostic, diagnosticId, Queued, Some(DiagnosticService.EnqueuedMessage(t.taskCode))),
     Enqueued(DiagnoseJob(t.uploadCode, t.taskCode))]
  }

  /** `DetectTask.run` once the task and its upload are found: IN PROGRESS,
      then on success the result row, the SUCCESSFUL status and a queued
      diagnostic task. */
  method RunFound(registry: Registry, t: DetectionTask, upload: Datasource, code: string, root: string,
                  engine: Option<Error>, samples: seq<Json>, detect: Json -> Result<Json>, now: int)
    returns (e: Option<Error>, diagnostic: DiagnosticTask?)
    modifies registry`journal, registry`lastId, registry`diagnosticTasks, t`statuses
    ensures var r := Detect(t.trainingTask.configuration, root, engine, samples, detect);
      var inProgress := StatusSaved(Detection, t.id, InProgress, Some("Detection in progress"));
      && (r.Err? ==>
            && e == Some(r.error) && diagnostic == null
            && t.statuses == old(t.statuses) + [StatusRecord(InProgress, Some("Detection in progress"), now)]
            && registry.journal == old(registry.journal) + [inProgress]
            && registry.diagnosticTasks == old(registry.diagnosticTasks))
      && (r.Ok? ==>
            && e.None? && diagnostic != null && fresh(diagnostic)
            && diagnostic.detectionTask == t && diagnostic.taskCode == t.taskCode
            && diagnostic.uploadCode == t.uploadCode
            && t.statuses == old(t.statuses)
                 + [StatusRecord(InProgress, Some("Detection in progress"), now),
                    StatusRecord(Successful, Some(FinishedMessage(code)), now)]
            && registry.diagnosticTasks == old(registry.diagnosticTasks) + [diagnostic]
            && registry.journal == old(registry.journal) + DetectedWrites(t, upload, code, r.value, diagnostic.id))
  {
    SetTaskStatus(registry, t, InProgress, Some("Detection in progress"), now);
    var r := Detect(t.trainingTask.configuration, root, engine, samples, detect);
    if r.Err? {
      return Some(r.error), null;
    }
    var row := DetectionResultRow(upload.companyId, t.uploadCode, code, r.value, t.id);
    registry.journal := registry.journal + [DetectionResultSaved(row)];
    SetTaskStatus(registry, t, Successful, Some(FinishedMessage(code)), now);
    diagnostic := DiagnosticService.TriggerDiagnostic(registry, t, t.uploadCode, now);
    e := None;
  }

  /** `DetectTask.run` for the task with this code. A missing task raises
      at once; a task whose upload is gone ends the job quietly; otherwise
      the job goes on as `RunFound` says. */
  method Run(registry: Registry, code: string, root: string, engine: Option<Error>, samples: seq<Json>,
             detect: Json -> Result<Json>, now: int)
    returns (e: Option<Error>, diagnostic: DiagnosticTask?)
    modifies registry`journal, registry`lastId, registry`diagnosticTasks, registry.detectionTasks`statuses
    ensures registry.DetectionByCode(code) == old(registry.DetectionByCode(code))
    ensures var t := old(registry.DetectionByCode(code));
      && (t == null ==>
            && e == Some(NoTaskError) && diagnostic == null && registry.journal == old(registry.journal)
            && registry.diagnosticTasks == old(registry.diagnosticTasks))
      && (t != null && UploadByCode(registry.datasources, t.uploadCode).None? ==>
            && e.None? && diagnostic == null && registry.journal == old(registry.journal)
            && registry.diagnosticTasks == old(registry.diagnosticTasks) && t.statuses == old(t.statuses))
      && (t != null && UploadByCode(registry.datasources, t.uploadCode).Some? ==>
            var upload := UploadByCode(registry.datasources, t.uploadCode).value;
            var r := Detect(t.trainingTask.configuration, root, engine, samples, detect);
            var inProgress := StatusSaved(Detection, t.id, InProgress, Some("Detection in progress"));
            && (r.Err? ==>
                  && e == Some(r.error) && diagnostic == null
                  && t.statuses == old(t.statuses) + [StatusRecord(InProgress, Some("Detection in progress"), now)]
                  && registry.journal == old(registry.journal) + [inProgress]
                  && registry.diagnosticTasks == old(registry.diagnosticTasks))
            && (r.Ok? ==>
                  && e.None? && diagnostic != null && fresh(diagnostic)
                  && diagnostic.detectionTask == t && diagnostic.taskCode == t.taskCode
                  && diagnostic.uploadCode == t.uploadCode
                  && t.statuses == old(t.statuses)
                       + [StatusRecord(InProgress, Some("Detection in progress"), now),
                          StatusRecord(Successful, Some(FinishedMessage(code)), now)]
                  && registry.diagnosticTasks == old(registry.diagnosticTasks) + [diagnostic]
                  && registry.journal == old(registry.journal) + DetectedWrites(t, upload, code, r.value, diagnostic.id)))
    ensures forall u :: u in registry.detectionTasks && u != old(registry.DetectionByCode(code)) ==>
      u.statuses == old(u.statuses)
  {
    var t := registry.DetectionByCode(code);
    if t == null {
      return Some(NoTaskError), null;
    }
    var upload := UploadByCode(registry.datasources, t.uploadCode);
    if upload.None? {
      return None, null;
    }
    e, diagnostic := RunFound(registry, t, upload.value, code, root, engine, samples, detect, now);
  }

  /** `DetectTask.on_failure`: the exception's text becomes a FAILED status
      of the task with this code; with no such task the handler itself
      raises and nothing is recorded. */
  method OnFailure(registry: Registry, code: string, exception: Error, now: int) returns (e: Option<Error>)
    modifies registry`journal, registry.detectionTasks`statuses
    ensures var t := old(registry.DetectionByCode(code));
      && (t == null ==>
            && e == Some(NoTaskIdError) && registry.journal == old(registry.journal)
            && forall u :: u in registry.detectionTasks ==> u.statuses == old(u.statuses))
      && (t != null ==>
            && e.None?
            && t.statuses == old(t.statuses) + [StatusRecord(Failed, Some(Describe(exception)), now)]
            && registry.journal == old(registry.journal) + [StatusSaved(Detection, t.id, Failed, Some(Describe(exception)))]
            && forall u :: u in registry.detectionTasks && u != t ==> u.statuses == old(u.statuses))
  {
    var t := registry.DetectionByCode(code);
    if t == null {
      return Some(NoTaskIdError);
    }
    SetTaskStatus(registry, t, Failed, Some(Describe(exception)), now);
    e := None;
  }

  /** The worker running the job: `run`, then `on_failure` when it raised.
      A task whose upload exists ends with IN PROGRESS followed by
      SUCCESSFUL, or by FAILED with the exception's text; a task without
      its upload, and a missing task, get no status. Only a successful
      detection adds a diagnostic task, and no other detection task changes. */
  method Execute(registry: Registry, code: string, root: string, engine: Option<Error>, samples: seq<Json>,
                 detect: Json -> Result<Json>, now: int)
    modifies registry`journal, registry`lastId, registry`diagnosticTasks, registry.detectionTasks`statuses
    ensures var t := old(registry.DetectionByCode(code));
      && (t == null || UploadByCode(registry.datasources, t.uploadCode).None? ==>
            && registry.journal == old(registry.journal)
            && registry.diagnosticTasks == old(registry.diagnosticTasks)
            && (t != null ==> t.statuses == old(t.statuses)))
      && (t != null && UploadByCode(registry.datasources, t.uploadCode).Some? ==>
            var upload := UploadByCode(registry.datasources, t.uploadCode).value;
            var r := Detect(t.trainingTask.configuration, root, engine, samples, detect);
            var inProgress := StatusSaved(Detection, t.id, InProgress, Some("Detection in progress"));
            && t.Status() == Some(if r.Ok? then Successful else Failed)
            && t.statuses == old(t.statuses)
                 + [StatusRecord(InProgress, Some("Detection in progress"), now),
                    if r.Ok? then StatusRecord(Successful, Some(FinishedMessage(code)), now)
                    else StatusRecord(Failed, Some(Describe(r.error)), now)]
            && (r.Err? ==>
                  && registry.diagnosticTasks == old(registry.diagnosticTasks)
                  && registry.journal == old(registry.journal)
                       + [inProgress, StatusSaved(Detection, t.id, Failed, Some(Describe(r.error)))])
            && (r.Ok? ==>
                  && |registry.diagnosticTasks| == |old(registry.diagnosticTasks)| + 1
                  && registry.diagnosticTasks[..|old(registry.diagnosticTasks)|] == old(registry.diagnosticTasks)
                  && var d := registry.diagnosticTasks[|old(registry.diagnosticTasks)|];
                  && fresh(d) && d.detectionTask == t && d.taskCode == t.taskCode && d.uploadCode == t.uploadCode
                  && registry.journal == old(registry.journal) + DetectedWrites(t, upload, code, r.value, d.id)))
    ensures forall u :: u in registry.detectionTasks && u != old(registry.DetectionByCode(code)) ==>
      u.statuses == old(u.statuses)
  {
    var e, _ := Run(registry, code, root, engine, samples, detect, now);
    if e.Some? {
      ghost var tasks := registry.diagnosticTasks;
      var _ := OnFailure(registry, code, e.value, now);
      assert registry.diagnosticTasks == tasks;
    }
  }
}
