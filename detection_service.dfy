/** The detection service: status rows for detection tasks, creating a
    detection task for a datasource and a training, and reading back the
    calibration a training stored.
 */
module DetectionService {
  import opened Wrappers
  import opened Json
  import opened TaskStatus
  import opened Entities
  import opened Store

  /** `set_task_status`: one status row for the task, nothing else. */
  method SetTaskStatus(registry: Registry, task: DetectionTask, status: State, message: Option<string>, now: int)
    modifies registry`journal, task`statuses
    ensures task.statuses == old(task.statuses) + [StatusRecord(status, message, now)]
    ensures registry.journal == old(registry.journal) + [StatusSaved(Detection, task.id, status, message)]
  {
    task.statuses := task.statuses + [StatusRecord(status, message, now)];
    registry.journal := registry.journal + [StatusSaved(Detection, task.id, status, message)];
  }

  /** `create_detection_task`: the task is saved, then given its QUEUED status. */
  method CreateDetectionTask(registry: Registry, name: string, uploadCode: string, code: string,
                             datasourceId: int, companyId: int, userId: int, trainingTask: TrainingTask,
                             configurationId: int, now: int)
    returns (task: DetectionTask)
    modifies registry`lastId, registry`detectionTasks, registry`journal
    ensures fresh(task)
    ensures task.name == name && task.uploadCode == uploadCode && task.taskCode == code
    ensures task.datasourceId == datasourceId && task.companyId == companyId && task.userId == userId
    ensures task.trainingTask == trainingTask && task.configurationId == configurationId
    ensures task.statuses == [StatusRecord(Queued, Some("Task has been enqueued"), now)]
    ensures task.id == old(registry.lastId) + 1 && registry.lastId == task.id
    ensures registry.detectionTasks == old(registry.detectionTasks) + [task]
    ensures registry.journal == old(registry.journal)
      + [TaskSaved(Detection, task.id), StatusSaved(Detection, task.id, Queued, Some("Task has been enqueued"))]
  {
    var id := registry.lastId + 1;
    task := new DetectionTask(id, name, companyId, configurationId, userId, uploadCode, code, datasourceId, trainingTask);
    registry.lastId := id;
    registry.detectionTasks := registry.detectionTasks + [task];
    registry.journal := registry.journal + [TaskSaved(Detection, id)];
    SetTaskStatus(registry, task, Queued, Some("Task has been enqueued"), now);
  }

  /** `trigger_detection`: a detection task for the upload, under the
      training's company configuration. `code` is the new task code. */
  method TriggerDetection(registry: Registry, name: string, datasource: Datasource,
                          trainingTask: TrainingTask, userId: int, code: string, now: int)
    returns (task: DetectionTask)
    modifies registry`lastId, registry`detectionTasks, registry`journal
    ensures fresh(task)
    ensures task.name == name && task.taskCode == code && task.userId == userId
    ensures task.uploadCode == datasource.uploadCode && task.datasourceId == datasource.id
    ensures task.companyId == datasource.companyId
    ensures task.trainingTask == trainingTask && task.configurationId == trainingTask.companyConfigurationId
    ensures task.statuses == [StatusRecord(Queued, Some("Task has been enqueued"), now)]
    ensures task.id == old(registry.lastId) + 1 && registry.lastId == task.id
    ensures registry.detectionTasks == old(registry.detectionTasks) + [task]
    ensures registry.journal == old(registry.journal)
      + [TaskSaved(Detection, task.id), StatusSaved(Detection, task.id, Queued, Some("Task has been enqueued"))]
  {
    task := CreateDetectionTask(registry, name, datasource.uploadCode, code, datasource.id, datasource.companyId,
                                userId, trainingTask, trainingTask.companyConfigurationId, now);
  }

  /** The calibration dictionary a training stores. */
  function CalibrationParameters(k: Json, x0: Json, anomalyPrior: Json): Json
  {
    Obj(map["k" := k, "x0" := x0, "anomaly_prior" := anomalyPrior])
  }

  /** The three calibration values, each None when missing. */
  datatype Calibration = Calibration(k: Json, x0: Json, anomalyPrior: Json)

  /** `load_calibration_values` for the configuration of the detection
      task's training: the three stored values (a missing one is None), or
      three Nones when there is no calibration or it is falsy. */
  function LoadCalibrationValues(configuration: Json): (r: Result<Calibration>)
    ensures !configuration.Obj? ==> r.Err? && r.error.AttributeError?
    ensures configuration.Obj? && ("calibration" !in configuration.fields || !Truthy(configuration.fields["calibration"]))
            ==> r == Ok(Calibration(Null, Null, Null))
    ensures configuration.Obj? && "calibration" in configuration.fields && Truthy(configuration.fields["calibration"])
            && !configuration.fields["calibration"].Obj?
            ==> r.Err? && r.error.AttributeError?
    ensures configuration.Obj? && "calibration" in configuration.fields && configuration.fields["calibration"].Obj?
            && Truthy(configuration.fields["calibration"]) ==>
      var c := configuration.fields["calibration"].fields;
      r == Ok(Calibration(if "k" in c then c["k"] else Null,
                          if "x0" in c then c["x0"] else Null,
                          if "anomaly_prior" in c then c["anomaly_prior"] else Null))
  {
    var calibration := GetOr(configuration, "calibration", Null);
    if calibration.Err? then Err(calibration.error)
    else if !Truthy(calibration.value) then Ok(Calibration(Null, Null, Null))
    else if !calibration.value.Obj? then Err(GetOr(calibration.value, "k", Null).error)
    else
      var c := calibration.value.fields;
      Ok(Calibration(if "k" in c then c["k"] else Null,
                     if "x0" in c then c["x0"] else Null,
                     if "anomaly_prior" in c then c["anomaly_prior"] else Null))
  }

  /** What a training stores as its calibration is what a detection reads back. */
  lemma CalibrationRoundTrip(configuration: Json, k: Json, x0: Json, anomalyPrior: Json)
    requires configuration.Obj?
    ensures var stored := Obj(configuration.fields["calibration" := CalibrationParameters(k, x0, anomalyPrior)]);
      LoadCalibrationValues(stored) == Ok(Calibration(k, x0, anomalyPrior))
  {
    var c := CalibrationParameters(k, x0, anomalyPrior);
    assert "k" in c.fields;
    assert Truthy(c);
  }
}
