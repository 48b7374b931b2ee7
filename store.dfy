/** Persistence as the services see it.

    The database and the task queue are replaced by one in-memory registry:
    the task rows that lookups by task code search, and a journal that
    records, in order, every row the services save and every job they put
    on the queue. Status rows are also appended to the owning task's
    `statuses`, which is what the entities' derived views read.
 */
module Store {
  import opened Wrappers
  import opened Json
  import opened TaskStatus
  import opened Entities
  import Chunks

  datatype Kind = Training | Detection | Diagnostic

  /** A job handed to the task queue. */
  datatype Job =
    | TrainJob(taskCode: string)
    | DetectJob(taskCode: string)
    | DiagnoseJob(uploadCode: string, taskCode: string)

  /** The detection result row. */
  datatype DetectionResultRow = DetectionResultRow(
    companyId: int, uploadCode: string, taskCode: string, result: Json, detectionTaskId: int)

  /** The diagnostic result row: one diagnosed chunk per entry. */
  datatype DiagnosticResultRow = DiagnosticResultRow(
    companyId: int, diagnosticTaskId: int, uploadCode: string, taskCode: string,
    result: seq<Chunks.DiagnosticChunk>)

  /** An uploaded file: a datasource row. */
  datatype Datasource = Datasource(id: int, uploadCode: string, companyId: int)

  /** One write to the database or the queue. */
  datatype Event =
    | TaskSaved(kind: Kind, id: int)
    | StatusSaved(kind: Kind, taskId: int, state: State, message: Option<string>)
    | ConfigurationSaved(taskId: int, configuration: Json)
    | DetectionResultSaved(detection: DetectionResultRow)
    | DiagnosticResultSaved(diagnostic: DiagnosticResultRow)
    | Enqueued(job: Job)

  class Registry {
    var trainingTasks: seq<TrainingTask>
    var detectionTasks: seq<DetectionTask>
    var diagnosticTasks: seq<DiagnosticTask>
    var datasources: seq<Datasource>
    var journal: seq<Event>
    /** The last id handed out to a new row. */
    var lastId: int

    constructor ()
      ensures trainingTasks == [] && detectionTasks == [] && diagnosticTasks == [] && datasources == []
      ensures journal == [] && lastId == 0
    {
      trainingTasks := [];
      detectionTasks := [];
      diagnosticTasks := [];
      datasources := [];
      journal := [];
      lastId := 0;
    }

    /** The training task with this task code, or null (`one_or_none`; task
        codes are unique, so the first match is the only one). */
    function TrainingByCode(code: string): (r: TrainingTask?)
      reads this`trainingTasks, trainingTasks`taskCode
      ensures r != null ==> r in trainingTasks && r.taskCode == code
      ensures r == null <==> forall t :: t in trainingTasks ==> t.taskCode != code
    {
      FirstTrainingWithCode(trainingTasks, code)
    }

    /** The detection task with this task code, or null. */
    function DetectionByCode(code: string): (r: DetectionTask?)
      reads this`detectionTasks, detectionTasks`taskCode
      ensures r != null ==> r in detectionTasks && r.taskCode == code
      ensures r == null <==> forall t :: t in detectionTasks ==> t.taskCode != code
    {
      FirstDetectionWithCode(detectionTasks, code)
    }

    /** The diagnostic task created for the detection task with this code, or null. */
    function DiagnosticByCode(code: string): (r: DiagnosticTask?)
      reads this`diagnosticTasks, diagnosticTasks`taskCode
      ensures r != null ==> r in diagnosticTasks && r.taskCode == code
      ensures r == null <==> forall t :: t in diagnosticTasks ==> t.taskCode != code
    {
      FirstDiagnosticWithCode(diagnosticTasks, code)
    }
  }

  /** `get_by_upload_code`: the uploaded file with this upload code, if any. */
  function UploadByCode(datasources: seq<Datasource>, uploadCode: string): (r: Option<Datasource>)
    ensures r.Some? ==> r.value in datasources && r.value.uploadCode == uploadCode
    ensures r.None? <==> forall d :: d in datasources ==> d.uploadCode != uploadCode
  {
    if datasources == [] then None
    else if datasources[0].uploadCode == uploadCode then Some(datasources[0])
    else UploadByCode(datasources[1..], uploadCode)
  }

  function FirstTrainingWithCode(ts: seq<TrainingTask>, code: string): (r: TrainingTask?)
    reads ts`taskCode
    ensures r != null ==> r in ts && r.taskCode == code
    ensures r == null <==> forall t :: t in ts ==> t.taskCode != code
  {
    if ts == [] then null
    else if ts[0].taskCode == code then ts[0]
    else FirstTrainingWithCode(ts[1..], code)
  }

  function FirstDetectionWithCode(ts: seq<DetectionTask>, code: string): (r: DetectionTask?)
    reads ts`taskCode
    ensures r != null ==> r in ts && r.taskCode == code
    ensures r == null <==> forall t :: t in ts ==> t.taskCode != code
  {
    if ts == [] then null
    else if ts[0].taskCode == code then ts[0]
    else FirstDetectionWithCode(ts[1..], code)
  }

  function FirstDiagnosticWithCode(ts: seq<DiagnosticTask>, code: string): (r: DiagnosticTask?)
    reads ts`taskCode
    ensures r != null ==> r in ts && r.taskCode == code
    ensures r == null <==> forall t :: t in ts ==> t.taskCode != code
  {
    if ts == [] then null
    else if ts[0].taskCode == code then ts[0]
    else FirstDiagnosticWithCode(ts[1..], code)
  }
}
