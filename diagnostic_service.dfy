/** The diagnostic service's task handling: status rows for diagnostic
    tasks and creating the diagnostic task that follows a detection. The
    chunk logic of the same service is in the Chunks module.
 */
module DiagnosticService {
  import opened Wrappers
  import opened TaskStatus
  import opened Entities
  import opened Store

  /** `set_task_status`: one status row for the task, nothing else. */
  method SetTaskStatus(registry: Registry, task: DiagnosticTask, status: State, message: Option<string>, now: int)
    modifies registry`journal, task`statuses
    ensures task.statuses == old(task.statuses) + [StatusRecord(status, message, now)]
    ensures registry.journal == old(registry.journal) + [StatusSaved(Diagnostic, task.id, status, message)]
  {
    task.statuses := task.statuses + [StatusRecord(status, message, now)];
    registry.journal := registry.journal + [StatusSaved(Diagnostic, task.id, status, message)];
  }

  /** The message of a new diagnostic task's QUEUED status. */
  function EnqueuedMessage(code: string): string
  {
    "Diagnostic for " + code + " has been enqueued"
  }

  /** `trigger_diagnostic`: a diagnostic task under the detection's task
      code, saved, given its QUEUED status, then put on the queue with the
      upload code and the task code. */
  method TriggerDiagnostic(registry: Registry, detectionTask: DetectionTask, uploadCode: string, now: int)
    returns (task: DiagnosticTask)
    modifies registry`lastId, registry`diagnosticTasks, registry`journal
    ensures fresh(task)
    ensures task.detectionTask == detectionTask && task.taskCode == detectionTask.taskCode
    ensures task.datasourceId == detectionTask.datasourceId && task.companyId == detectionTask.companyId
    ensures task.uploadCode == uploadCode
    ensures task.statuses == [StatusRecord(Queued, Some(EnqueuedMessage(detectionTask.taskCode)), now)]
    ensures task.id == old(registry.lastId) + 1 && registry.lastId == task.id
    ensures registry.diagnosticTasks == old(registry.diagnosticTasks) + [task]
    ensures registry.journal == old(registry.journal)
      + [TaskSaved(Diagnostic, task.id),
         StatusSaved(Diagnostic, task.id, Queued, Some(EnqueuedMessage(detectionTask.taskCode))),
         Enqueued(DiagnoseJob(uploadCode, detectionTask.taskCode))]
  {
    var id := registry.lastId + 1;
    var code := detectionTask.taskCode;
    task := new DiagnosticTask(id, detectionTask, detectionTask.companyId, detectionTask.datasourceId, uploadCode, code);
    registry.lastId := id;
    registry.diagnosticTasks := registry.diagnosticTasks + [task];
    registry.journal := registry.journal + [TaskSaved(Diagnostic, id)];
    SetTaskStatus(registry, task, Queued, Some(EnqueuedMessage(code)), now);
    registry.journal := registry.journal + [Enqueued(DiagnoseJob(uploadCode, code))];
  }
}
