/** The three task entities: training, detection and diagnostic tasks.

    Each owns its status log (rows ordered by id) and exposes derived,
    read-only views of it and of its configuration. The fields the task
    runners and services update in place are fields of these classes.
 */
module Entities {
  import opened Wrappers
  import opened Json
  import opened TaskStatus
  import Paths
  import PyInt

  /** Where the model section of a configuration keeps its paths. */
  const ModelConfigurationPath: seq<string> := ["model", "configuration", "model_configuration"]
  const SavePathPath: seq<string> := ModelConfigurationPath + ["save_path"]
  const LoadPathPath: seq<string> := ModelConfigurationPath + ["load_path"]
  const EnableFftPath: seq<string> := ["transformer", "configuration", "enable_fft"]

  /** `str(company_id)` is a single path component. */
  lemma ShowIsName(i: int)
    ensures Paths.IsName(PyInt.Show(i))
  {
    var s := PyInt.Show(i);
    if i < 0 {
      var d := PyInt.Digits(-i);
      assert s == "-" + d;
      forall k | 0 <= k < |s| ensures s[k] != '/' {
        if k > 0 { assert s[k] == d[k - 1] && PyInt.IsDigit(d[k - 1]); }
      }
    } else {
      forall k | 0 <= k < |s| ensures s[k] != '/' {
        assert PyInt.IsDigit(s[k]);
      }
    }
  }

  class TrainingTask {
    var id: int
    var name: string
    var companyId: int
    var companyConfigurationId: int
    var datasourceConfigurationId: int
    var userId: int
    var taskCode: string
    var parentTrainingId: Option<int>
    var datasourceIds: seq<int>
    var configuration: Json
    var statuses: seq<StatusRecord>

    /** A new, not yet saved entity: no status rows. */
    constructor (id: int, name: string, companyId: int, companyConfigurationId: int,
                 datasourceConfigurationId: int, userId: int, taskCode: string,
                 parentTrainingId: Option<int>, datasourceIds: seq<int>, configuration: Json)
      ensures this.id == id && this.name == name && this.companyId == companyId
      ensures this.companyConfigurationId == companyConfigurationId
      ensures this.datasourceConfigurationId == datasourceConfigurationId
      ensures this.userId == userId && this.taskCode == taskCode
      ensures this.parentTrainingId == parentTrainingId && this.datasourceIds == datasourceIds
      ensures this.configuration == configuration && statuses == []
    {
      this.id := id;
      this.name := name;
      this.companyId := companyId;
      this.companyConfigurationId := companyConfigurationId;
      this.datasourceConfigurationId := datasourceConfigurationId;
      this.userId := userId;
      this.taskCode := taskCode;
      this.parentTrainingId := parentTrainingId;
      this.datasourceIds := datasourceIds;
      this.configuration := configuration;
      statuses := [];
    }

    /** The `status` property: the state of the last row by id, None without rows. */
    function Status(): (r: Option<State>)
      reads this
      ensures r.None? <==> statuses == []
      ensures r.Some? ==> r.value == statuses[|statuses| - 1].state
    {
      CurrentState(statuses)
    }

    /** The `is_completed` property. */
    predicate IsCompleted()
      reads this
      ensures IsCompleted() <==> statuses != [] && statuses[|statuses| - 1].state in {Successful, Failed}
    {
      TaskStatus.IsCompleted(statuses)
    }

    /** The `running_time` property: from the first IN PROGRESS row (else the
        first row) to the last row, as `timedelta.seconds`. */
    method RunningTime() returns (r: Option<int>)
      ensures r == TrainingRunningTime(statuses)
    {
      if statuses == [] {
        return None;
      }
      var start := statuses[0].lastUpdate;
      var i := 0;
      while i < |statuses|
        invariant 0 <= i <= |statuses|
        invariant forall j :: 0 <= j < i ==> statuses[j].state != InProgress
        invariant start == statuses[0].lastUpdate
      {
        if statuses[i].state == InProgress {
          start := statuses[i].lastUpdate;
          break;
        }
        i := i + 1;
      }
      r := Some(Seconds(start, statuses[|statuses| - 1].lastUpdate));
    }

    /** The `has_fft_enabled` property: the stored `enable_fft`, True when a
        key on its path is missing; a non-dictionary on the path still raises. */
    function HasFftEnabled(): (r: Result<Json>)
      reads this
      ensures Get(configuration, EnableFftPath).Ok? ==> r == Get(configuration, EnableFftPath)
      ensures (Get(configuration, EnableFftPath).Err? && Get(configuration, EnableFftPath).error.KeyError?)
              ==> r == Ok(Bool(true))
      ensures r.Err? <==> Get(configuration, EnableFftPath).Err? && Get(configuration, EnableFftPath).error.TypeError?
    {
      match Get(configuration, EnableFftPath)
      case Ok(v) => Ok(v)
      case Err(e) => if e.KeyError? then Ok(Bool(true)) else Err(e)
    }

    /** The `training_save_path` property: the model's `save_path`, None when
        a key on its path is missing. */
    function TrainingSavePath(): (r: Result<Json>)
      reads this
      ensures Get(configuration, SavePathPath).Ok? ==> r == Get(configuration, SavePathPath)
      ensures (Get(configuration, SavePathPath).Err? && Get(configuration, SavePathPath).error.KeyError?)
              ==> r == Ok(Null)
      ensures r.Err? <==> Get(configuration, SavePathPath).Err? && Get(configuration, SavePathPath).error.TypeError?
    {
      match Get(configuration, SavePathPath)
      case Ok(v) => Ok(v)
      case Err(e) => if e.KeyError? then Ok(Null) else Err(e)
    }

    /** The `train_data_dir` property under the training root folder `root`. */
    function TrainDataDir(root: string): string
      reads this
    {
      Paths.Join(Paths.Join(root, PyInt.Show(companyId)), taskCode)
    }

    /** The `train_data_location` property under the training root folder `root`. */
    function TrainDataLocation(root: string): string
      reads this
    {
      Paths.Join(TrainDataDir(root), taskCode)
    }

    /** The data directory is the data location minus its last component,
        which is the task code. */
    lemma DirIsParentOfLocation(root: string)
      requires Paths.IsName(taskCode)
      ensures Paths.Dirname(TrainDataLocation(root)) == TrainDataDir(root)
      ensures Paths.Basename(TrainDataLocation(root)) == taskCode
    {
      var d := TrainDataDir(root);
      Paths.JoinName(Paths.Join(root, PyInt.Show(companyId)), taskCode);
      Paths.JoinName(d, taskCode);
      Paths.SplitLastComponent(d, taskCode);
    }

    /** A retrain is a task whose parent id is set (and truthy). */
    predicate IsRetrain()
      reads this
    {
      parentTrainingId.Some? && parentTrainingId.value != 0
    }
  }

  class DetectionTask {
    var id: int
    var name: string
    var companyId: int
    var configurationId: int
    var userId: int
    var uploadCode: string
    var taskCode: string
    var datasourceId: int
    var trainingTask: TrainingTask
    var statuses: seq<StatusRecord>

    /** A new, not yet saved entity: no status rows. */
    constructor (id: int, name: string, companyId: int, configurationId: int, userId: int,
                 uploadCode: string, taskCode: string, datasourceId: int, trainingTask: TrainingTask)
      ensures this.id == id && this.name == name && this.companyId == companyId
      ensures this.configurationId == configurationId && this.userId == userId
      ensures this.uploadCode == uploadCode && this.taskCode == taskCode
      ensures this.datasourceId == datasourceId && this.trainingTask == trainingTask
      ensures statuses == []
    {
      this.id := id;
      this.name := name;
      this.companyId := companyId;
      this.configurationId := configurationId;
      this.userId := userId;
      this.uploadCode := uploadCode;
      this.taskCode := taskCode;
      this.datasourceId := datasourceId;
      this.trainingTask := trainingTask;
      statuses := [];
    }

    /** The `status` property: the state of the last row by id, None without rows. */
    function Status(): (r: Option<State>)
      reads this
      ensures r.None? <==> statuses == []
      ensures r.Some? ==> r.value == statuses[|statuses| - 1].state
    {
      CurrentState(statuses)
    }

    /** The `is_completed` property. */
    predicate IsCompleted()
      reads this
      ensures IsCompleted() <==> statuses != [] && statuses[|statuses| - 1].state in {Successful, Failed}
    {
      TaskStatus.IsCompleted(statuses)
    }

    /** The `running_time` property: from the first row, QUEUED included, to
        the last, as `timedelta.seconds`; None without rows. */
    function RunningTime(): (r: Option<int>)
      reads this
      ensures r.None? <==> statuses == []
      ensures r.Some? ==> r.value == Seconds(statuses[0].lastUpdate, statuses[|statuses| - 1].lastUpdate)
    {
      TaskStatus.RunningTime(statuses)
    }

    /** The `is_frequency_domain` property: the training task's `has_fft_enabled`. */
    function IsFrequencyDomain(): (r: Result<Json>)
      reads this, trainingTask
      ensures r == trainingTask.HasFftEnabled()
    {
      trainingTask.HasFftEnabled()
    }

    /** The `is_time_domain` property: the negated truth value of the frequency flag. */
    function IsTimeDomain(): (r: Result<bool>)
      reads this, trainingTask
      ensures r.Ok? <==> IsFrequencyDomain().Ok?
      ensures r.Ok? ==> r.value == !Truthy(IsFrequencyDomain().value)
    {
      match trainingTask.HasFftEnabled()
      case Ok(v) => Ok(!Truthy(v))
      case Err(e) => Err(e)
    }
  }

  /** The successful detections of a company: some status row is SUCCESSFUL. */
  function SuccessfulByCompany(tasks: set<DetectionTask>, companyId: int): (r: set<DetectionTask>)
    reads tasks
    ensures r <= tasks
    ensures forall t :: t in tasks && t.companyId == companyId && EverSuccessful(t.statuses) ==> t in r
    ensures forall t :: t in tasks && t.companyId == companyId && t.Status() == Some(Successful) ==> t in r
    ensures forall t :: t in r ==> t.companyId == companyId && exists i :: 0 <= i < |t.statuses| && t.statuses[i].state == Successful
  {
    EverSuccessfulIsWeaker(0);
    set t | t in tasks && t.companyId == companyId && EverSuccessful(t.statuses)
  }

  class DiagnosticTask {
    var id: int
    var detectionTask: DetectionTask?
    var companyId: int
    var datasourceId: int
    var uploadCode: string
    var taskCode: string
    var statuses: seq<StatusRecord>

    /** A new, not yet saved entity: no status rows. */
    constructor (id: int, detectionTask: DetectionTask?, companyId: int, datasourceId: int,
                 uploadCode: string, taskCode: string)
      ensures this.id == id && this.detectionTask == detectionTask && this.companyId == companyId
      ensures this.datasourceId == datasourceId && this.uploadCode == uploadCode
      ensures this.taskCode == taskCode && statuses == []
    {
      this.id := id;
      this.detectionTask := detectionTask;
      this.companyId := companyId;
      this.datasourceId := datasourceId;
      this.uploadCode := uploadCode;
      this.taskCode := taskCode;
      statuses := [];
    }

    /** The `status` property: the state of the last row by id, None without rows. */
    function Status(): (r: Option<State>)
      reads this
      ensures r.None? <==> statuses == []
      ensures r.Some? ==> r.value == statuses[|statuses| - 1].state
    {
      CurrentState(statuses)
    }

    /** The `is_completed` property. */
    predicate IsCompleted()
      reads this
      ensures IsCompleted() <==> statuses != [] && statuses[|statuses| - 1].state in {Successful, Failed}
    {
      TaskStatus.IsCompleted(statuses)
    }

    /** The `running_time` property: first to last row, None without rows. */
    function RunningTime(): (r: Option<int>)
      reads this
      ensures r.None? <==> statuses == []
      ensures r.Some? ==> r.value == Seconds(statuses[0].lastUpdate, statuses[|statuses| - 1].lastUpdate)
    {
      TaskStatus.RunningTime(statuses)
    }

    /** The `is_frequency_domain` property, delegated to the detection task; an
        unset detection task raises AttributeError. */
    function IsFrequencyDomain(): (r: Result<Json>)
      reads this, detectionTask
      reads if detectionTask != null then {detectionTask.trainingTask} else {}
      ensures detectionTask == null ==> r.Err? && r.error.AttributeError?
      ensures detectionTask != null ==> r == detectionTask.IsFrequencyDomain()
    {
      if detectionTask == null then Err(AttributeError("'NoneType' object has no attribute 'is_frequency_domain'"))
      else detectionTask.IsFrequencyDomain()
    }

    /** The `is_time_domain` property, delegated to the detection task. */
    function IsTimeDomain(): (r: Result<bool>)
      reads this, detectionTask
      reads if detectionTask != null then {detectionTask.trainingTask} else {}
      ensures detectionTask == null ==> r.Err? && r.error.AttributeError?
      ensures detectionTask != null ==> r == detectionTask.IsTimeDomain()
    {
      if detectionTask == null then Err(AttributeError("'NoneType' object has no attribute 'is_time_domain'"))
      else detectionTask.IsTimeDomain()
    }
  }
}
