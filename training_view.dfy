/** The training endpoints' helpers: coercing the submitted form values,
    the list filters, the number of timesteps, overlaying the submitted
    training parameters, and the order in which `submit` rejects a request
    before it saves and enqueues the new task.
 */
module TrainingView {
  import opened Wrappers
  import opened Json
  import opened TaskStatus
  import opened Entities
  import opened Store
  import opened TrainingService
  import PyInt

  // ---------------------------------------------------------------------
  // Coercions of submitted values

  /** Python's `int(v)` for a JSON value. */
  function IntOf(v: Json): (r: Result<int>)
    ensures v.Int? ==> r == Ok(v.i)
    ensures v.Str? ==> r == PyInt.ParseInt(v.s)
    ensures v.Real? ==> r == Ok(PyInt.Truncate(v.r))
    ensures v.Bool? ==> r == Ok(if v.b then 1 else 0)
    ensures (v.Obj? || v.Null?) ==> r.Err? && r.error.TypeError?
  {
    match v
    case Int(i) => Ok(i)
    case Str(s) => PyInt.ParseInt(s)
    case Real(x) => Ok(PyInt.Truncate(x))
    case Bool(b) => Ok(if b then 1 else 0)
    case _ => Err(TypeError("int() argument must be a string, a bytes-like object or a number, not '"
                            + TypeName(v) + "'"))
  }

  /** The submitted `enable_fft`: a truthy value becomes `bool(int(v))`, a
      falsy one (including a missing one, None) is kept as it is. */
  function EnableFftCoercion(v: Json): (r: Result<Json>)
    ensures !Truthy(v) ==> r == Ok(v)
    ensures Truthy(v) ==> (r.Ok? <==> IntOf(v).Ok?)
    ensures Truthy(v) && r.Ok? ==> r.value == Bool(IntOf(v).value != 0)
  {
    if Truthy(v) then
      match IntOf(v)
      case Ok(n) => Ok(Bool(n != 0))
      case Err(e) => Err(e)
    else Ok(v)
  }

  /** The string "0" is truthy, so it reaches `int` and turns FFT off; an
      empty string is falsy and is kept. */
  lemma EnableFftFromForm()
    ensures EnableFftCoercion(Str("0")) == Ok(Bool(false))
    ensures EnableFftCoercion(Str("1")) == Ok(Bool(true))
    ensures EnableFftCoercion(Str("")) == Ok(Str(""))
    ensures EnableFftCoercion(Str("yes")).Err?
  {
    PyInt.ParseShow(0);
    PyInt.ParseShow(1);
    assert PyInt.Show(0) == "0" && PyInt.Show(1) == "1";
    assert !PyInt.IsDigit("yes"[0]);
  }

  /** The `datasource_config_id` list filter: the empty string selects
      nothing (-1), anything else must be an integer. */
  function DatasourceConfigIdFilter(s: string): (r: Result<int>)
    ensures s == "" ==> r == Ok(-1)
    ensures s != "" ==> r == PyInt.ParseInt(s)
  {
    if s == "" then Ok(-1) else PyInt.ParseInt(s)
  }

  /** An id written out in decimal filters by that id. */
  lemma DatasourceConfigIdRoundTrip(id: int)
    ensures DatasourceConfigIdFilter(PyInt.Show(id)) == Ok(id)
  {
    PyInt.ParseShow(id);
  }

  // ---------------------------------------------------------------------
  // The `valid_only` filter

  /** The tasks listed with `valid_only`: those whose current state is SUCCESSFUL. */
  function ValidOnly(tasks: seq<TrainingTask>): (r: seq<TrainingTask>)
    reads set t | t in tasks
    ensures forall t :: t in r ==> t in tasks && t.Status() == Some(Successful)
    ensures forall t :: t in tasks && t.Status() == Some(Successful) ==> t in r
    ensures |r| <= |tasks|
  {
    if tasks == [] then []
    else (if tasks[0].Status() == Some(Successful) then [tasks[0]] else []) + ValidOnly(tasks[1..])
  }

  /** The filter keeps the listing's order. */
  lemma {:induction false} ValidOnlyKeepsOrder(a: seq<TrainingTask>, b: seq<TrainingTask>)
    ensures ValidOnly(a + b) == ValidOnly(a) + ValidOnly(b)
  {
    if a != [] {
      assert (a + b)[1..] == a[1..] + b;
      ValidOnlyKeepsOrder(a[1..], b);
    } else {
      assert a + b == b;
    }
  }

  // ---------------------------------------------------------------------
  // Number of timesteps

  /** `784 // number_of_sensors * downsample_factor`: the 784 values of a
      28 by 28 image shared among the sensors, scaled by the downsampling. */
  function NumberOfTimesteps(sensors: int, downsample: int): int
    requires sensors != 0
  {
    PyInt.FloorDiv(784, sensors) * downsample
  }

  /** With a positive sensor count, the timesteps of all sensors fit in the
      image, scaled by the downsampling. */
  lemma TimestepsFitTheImage(sensors: int, downsample: int)
    requires sensors > 0 && downsample >= 0
    ensures NumberOfTimesteps(sensors, downsample) * sensors <= 784 * downsample
  {
    var q := PyInt.FloorDiv(784, sensors);
    assert sensors * q <= 784;
    assert q * downsample * sensors == (sensors * q) * downsample;
    MulMonotone(sensors * q, 784, downsample);
  }

  lemma MulMonotone(a: int, b: int, c: int)
    requires a <= b && c >= 0
    ensures a * c <= b * c
  {
  }

  /** The division floors, as Python's `//` does: 784 sensors' worth of
      negative sensors rounds away from zero. */
  lemma TimestepsFloor()
    ensures NumberOfTimesteps(8, 4) == 392
    ensures NumberOfTimesteps(3, 1) == 261
    ensures NumberOfTimesteps(-3, 1) == -262
  {
  }

  /** `784 // n` for the `number_of_sensors` value of the meta; `bool` is an
      `int` in Python. */
  function TimestepsFor(sensors: Json, downsample: int): (r: Result<int>)
    ensures sensors == Int(0) ==> r == Err(IntDivisionByZero)
    ensures sensors.Int? && sensors.i != 0 ==> r == Ok(NumberOfTimesteps(sensors.i, downsample))
  {
    match sensors
    case Int(n) => if n == 0 then Err(IntDivisionByZero) else Ok(NumberOfTimesteps(n, downsample))
    case Bool(b) => if b then Ok(NumberOfTimesteps(1, downsample)) else Err(IntDivisionByZero)
    case _ => Err(TypeError("unsupported operand type(s) for //: 'int' and '" + TypeName(sensors) + "'"))
  }

  // ---------------------------------------------------------------------
  // Overlaying the submitted parameters

  function ParametersOverride(downsample: Json, timesteps: Json, trainIters: Json): Json
  {
    Obj(map[
      "model" := Obj(map["configuration" := Obj(map["model_configuration" := Obj(map[
        "train_iters" := trainIters])])]),
      "transformer" := Obj(map["configuration" := Obj(map[
        "number_of_timesteps" := timesteps,
        "downsample_factor" := downsample])])])
  }

  /** `add_training_parameters_to_configuration`. */
  function AddTrainingParameters(downsample: Json, timesteps: Json, trainIters: Json, configuration: Json): Json
  {
    Merge(configuration, ParametersOverride(downsample, timesteps, trainIters))
  }

  /** The three submitted values are what the configuration then holds. */
  lemma ParametersAreSet(downsample: Json, timesteps: Json, trainIters: Json, configuration: Json)
    requires !downsample.Obj? && !timesteps.Obj? && !trainIters.Obj?
    ensures var c := AddTrainingParameters(downsample, timesteps, trainIters, configuration);
      && Get(c, TrainItersPath) == Ok(trainIters)
      && Get(c, NumberOfTimestepsPath) == Ok(timesteps)
      && Get(c, DownsampleFactorPath) == Ok(downsample)
  {
    var o := ParametersOverride(downsample, timesteps, trainIters);
    assert Get(o, ModelConfigurationPath) == Ok(Obj(map["train_iters" := trainIters]));
    assert Get(o, TransformerConfigurationPath)
        == Ok(Obj(map["number_of_timesteps" := timesteps, "downsample_factor" := downsample]));
    SectionLeaf(configuration, o, ModelConfigurationPath, "train_iters");
    SectionLeaf(configuration, o, TransformerConfigurationPath, "number_of_timesteps");
    SectionLeaf(configuration, o, TransformerConfigurationPath, "downsample_factor");
  }

  /** Submitting parameters changes nothing else: every path the parameters
      dictionary does not reach reads as before. */
  lemma ParametersKeepTheRest(downsample: Json, timesteps: Json, trainIters: Json, configuration: Json, p: seq<string>)
    requires !Touches(ParametersOverride(downsample, timesteps, trainIters), p)
    ensures Find(AddTrainingParameters(downsample, timesteps, trainIters, configuration), p) == Find(configuration, p)
  {
    MergeKeepsBaseElsewhere(configuration, ParametersOverride(downsample, timesteps, trainIters), p);
  }

  /** Among the settings kept: the model's and the transformer's class names,
      and a sibling of `train_iters` such as the batch size. */
  lemma ParametersKeepClassNames(downsample: Json, timesteps: Json, trainIters: Json, configuration: Json)
    ensures var c := AddTrainingParameters(downsample, timesteps, trainIters, configuration);
      && Find(c, ["model", "class_name"]) == Find(configuration, ["model", "class_name"])
      && Find(c, ["transformer", "class_name"]) == Find(configuration, ["transformer", "class_name"])
      && Find(c, ModelConfigurationPath + ["batch_size"]) == Find(configuration, ModelConfigurationPath + ["batch_size"])
  {
    var o := ParametersOverride(downsample, timesteps, trainIters);
    var model := o.fields["model"];
    assert !Touches(model, ["model", "class_name"][1..]);
    ParametersKeepTheRest(downsample, timesteps, trainIters, configuration, ["model", "class_name"]);
    assert !Touches(o.fields["transformer"], ["transformer", "class_name"][1..]);
    ParametersKeepTheRest(downsample, timesteps, trainIters, configuration, ["transformer", "class_name"]);
    var batch := ModelConfigurationPath + ["batch_size"];
    var leaves := model.fields["configuration"].fields["model_configuration"];
    assert !Touches(leaves, batch[3..]);
    assert !Touches(model.fields["configuration"], batch[2..]);
    assert !Touches(model, batch[1..]);
    ParametersKeepTheRest(downsample, timesteps, trainIters, configuration, batch);
  }

  // ---------------------------------------------------------------------
  // Submitting a training

  /** A datasource configuration row: its name and its meta dictionary. */
  datatype DatasourceConfiguration = DatasourceConfiguration(id: int, name: string, meta: Json)

  /** What `submit` answers without an exception. */
  datatype Response =
    | Rejected(status: int, message: string)
    | Created(task: TrainingTask)

  /** The outcome of the checks: a rejection, or the submitted values once
      they have passed every check. */
  datatype Verdict =
    | Reject(status: int, message: string)
    | Proceed(downsample: int, trainIters: int, enableFft: Json, sensors: Json, timesteps: int)

  /** A training of this name already exists for the company. */
  predicate NameTaken(tasks: seq<TrainingTask>, name: string, companyId: int)
    reads set t | t in tasks
  {
    exists t :: t in tasks && t.name == name && t.companyId == companyId
  }

  /** A training of this name already exists for any company. The name
      column is unique across all companies, so saving a second task of
      that name fails. */
  predicate NameInUse(tasks: seq<TrainingTask>, name: string)
    reads set t | t in tasks
  {
    exists t :: t in tasks && t.name == name
  }

  /** A name taken within the company is in use. */
  lemma TakenIsInUse(tasks: seq<TrainingTask>, name: string, companyId: int)
    ensures NameTaken(tasks, name, companyId) ==> NameInUse(tasks, name)
  {
  }

  /** What saving a task under a name that is already in use raises. */
  const DuplicateNameError: Error :=
    IntegrityError("duplicate key value violates unique constraint \"ix_training_task_name\"")

  /** The checks `submit` makes before it builds anything, in order: the two
      integer conversions and the FFT coercion (which raise), a duplicate
      name (400), an unknown datasource configuration (404), a missing or
      zero sensor count (400), the timestep arithmetic (which raises), and a
      datasource configuration without datasources (400). */
  function Validate(name: string, nameTaken: bool, enableFft: Json, downsample: Json, trainIters: Json,
                    configuration: Option<DatasourceConfiguration>, datasources: seq<int>): (r: Result<Verdict>)
    ensures r.Ok? && r.value.Proceed? ==>
      && !nameTaken && configuration.Some? && datasources != []
      && Truthy(r.value.sensors) && r.value.sensors != Int(0)
      && IntOf(downsample) == Ok(r.value.downsample) && IntOf(trainIters) == Ok(r.value.trainIters)
      && EnableFftCoercion(enableFft) == Ok(r.value.enableFft)
      && TimestepsFor(r.value.sensors, r.value.downsample) == Ok(r.value.timesteps)
    ensures (IntOf(downsample).Err? || IntOf(trainIters).Err? || EnableFftCoercion(enableFft).Err?) ==> r.Err?
    ensures IntOf(downsample).Ok? && IntOf(trainIters).Ok? && EnableFftCoercion(enableFft).Ok? ==>
      && (nameTaken ==> r == Ok(Reject(400, "Training with name " + name + " already exists")))
      && (!nameTaken && configuration.None? ==> r == Ok(Reject(404, "No datasource type found!")))
      && (!nameTaken && configuration.Some? && configuration.value.meta.Obj?
          && !Truthy(GetOr(configuration.value.meta, "number_of_sensors", Null).value)
          ==> r == Ok(Reject(400, "No number of sensors specified! Check datasource configuration")))
      && (!nameTaken && configuration.Some? && GetOr(configuration.value.meta, "number_of_sensors", Null).Err?
          ==> r == Err(GetOr(configuration.value.meta, "number_of_sensors", Null).error))
    ensures IntOf(downsample).Ok? && IntOf(trainIters).Ok? && EnableFftCoercion(enableFft).Ok? &&
            !nameTaken && configuration.Some? && GetOr(configuration.value.meta, "number_of_sensors", Null).Ok? &&
            Truthy(GetOr(configuration.value.meta, "number_of_sensors", Null).value) ==>
      var sensors := GetOr(configuration.value.meta, "number_of_sensors", Null).value;
      var timesteps := TimestepsFor(sensors, IntOf(downsample).value);
      && (timesteps.Err? ==> r == Err(timesteps.error))
      && (timesteps.Ok? && datasources == [] ==>
            r == Ok(Reject(400, "No valid datasources available for type " + configuration.value.name)))
      && (timesteps.Ok? && datasources != [] ==>
            r == Ok(Proceed(IntOf(downsample).value, IntOf(trainIters).value, EnableFftCoercion(enableFft).value,
                            sensors, timesteps.value)))
  {
    var d :- IntOf(downsample);
    var n :- IntOf(trainIters);
    var fft :- EnableFftCoercion(enableFft);
    if nameTaken then Ok(Reject(400, "Training with name " + name + " already exists"))
    else if configuration.None? then Ok(Reject(404, "No datasource type found!"))
    else
      var sensors :- GetOr(configuration.value.meta, "number_of_sensors", Null);
      if !Truthy(sensors) then Ok(Reject(400, "No number of sensors specified! Check datasource configuration"))
      else
        var timesteps :- TimestepsFor(sensors, d);
        if datasources == [] then Ok(Reject(400, "No valid datasources available for type " + configuration.value.name))
        else Ok(Proceed(d, n, fft, sensors, timesteps))
  }

  /** The parent id stored on the new task: `int(parent_training_id)` when it
      is truthy, None otherwise. */
  function ParentIdOf(parentTrainingId: Json): (r: Result<Option<int>>)
    ensures !Truthy(parentTrainingId) ==> r == Ok(None)
    ensures Truthy(parentTrainingId) ==> (r.Ok? <==> IntOf(parentTrainingId).Ok?)
    ensures Truthy(parentTrainingId) && r.Ok? ==> r.value == Some(IntOf(parentTrainingId).value)
  {
    if !Truthy(parentTrainingId) then Ok(None)
    else match IntOf(parentTrainingId)
      case Ok(i) => Ok(Some(i))
      case Err(e) => Err(e)
  }

  /** What `submit` decides before it writes anything: a rejection, or the
      configuration and parent id of the task to save. */
  datatype Plan =
    | Refuse(status: int, message: string)
    | Save(configuration: Json, parentId: Option<int>)

  /** The decision of `submit`. The checks of `Validate` come first; then the
      configuration is built from the company configuration and the
      datasource meta, the submitted parameters are overlaid, and the parent
      id is converted. `configuration` is the datasource configuration the
      lookup by id found for the company, `parent` the task found for the
      parent id, `code` the new task code. */
  function SubmitPlan(name: string, nameTaken: bool, enableFft: Json, downsample: Json, trainIters: Json,
                      configuration: Option<DatasourceConfiguration>, datasources: seq<int>,
                      companyId: int, companyConfiguration: Json,
                      parentTrainingId: Json, parent: TrainingTask?, code: string): (r: Result<Plan>)
    reads parent
    ensures var v := Validate(name, nameTaken, enableFft, downsample, trainIters, configuration, datasources);
      && (v.Err? ==> r == Err(v.error))
      && (v.Ok? && v.value.Reject? ==> r == Ok(Refuse(v.value.status, v.value.message)))
      && (v.Ok? && v.value.Proceed? ==>
            var c := CreateTrainingConfiguration(code, companyId, companyConfiguration,
                                                 configuration.value.meta, v.value.enableFft, parentTrainingId, parent);
            && (c.Err? ==> r == Err(c.error))
            && (c.Ok? && ParentIdOf(parentTrainingId).Err? ==> r == Err(ParentIdOf(parentTrainingId).error))
            && (c.Ok? && ParentIdOf(parentTrainingId).Ok? ==>
                  r == Ok(Save(AddTrainingParameters(Int(v.value.downsample), Int(v.value.timesteps),
                                                     Int(v.value.trainIters), c.value),
                               ParentIdOf(parentTrainingId).value))))
  {
    var v :- Validate(name, nameTaken, enableFft, downsample, trainIters, configuration, datasources);
    if v.Reject? then Ok(Refuse(v.status, v.message))
    else
      var c :- CreateTrainingConfiguration(code, companyId, companyConfiguration,
                                           configuration.value.meta, v.enableFft, parentTrainingId, parent);
      var parentId :- ParentIdOf(parentTrainingId);
      Ok(Save(AddTrainingParameters(Int(v.downsample), Int(v.timesteps), Int(v.trainIters), c), parentId))
  }

  /** The writes of a successful `submit`: the new task under the next id,
      then its QUEUED status, then its job on the queue. */
  method SaveTask(registry: Registry, companyId: int, userId: int, name: string,
                  datasourceConfigurationId: int, datasources: seq<int>, companyConfigurationId: int,
                  configuration: Json, parentId: Option<int>, code: string, now: int)
    returns (t: TrainingTask)
    modifies registry`lastId, registry`trainingTasks, registry`journal
    ensures fresh(t)
    ensures t.name == name && t.companyId == companyId && t.taskCode == code && t.userId == userId
    ensures t.datasourceConfigurationId == datasourceConfigurationId && t.datasourceIds == datasources
    ensures t.companyConfigurationId == companyConfigurationId
    ensures t.configuration == configuration && t.parentTrainingId == parentId
    ensures t.statuses == [StatusRecord(Queued, Some("Enqueued"), now)]
    ensures t.id == old(registry.lastId) + 1 && registry.lastId == t.id
    ensures registry.trainingTasks == old(registry.trainingTasks) + [t]
    ensures registry.journal == old(registry.journal)
      + [TaskSaved(Training, t.id), StatusSaved(Training, t.id, Queued, Some("Enqueued")), Enqueued(TrainJob(code))]
  {
    var id := registry.lastId + 1;
    t := new TrainingTask(id, name, companyId, companyConfigurationId, datasourceConfigurationId,
                          userId, code, parentId, datasources, configuration);
    registry.lastId := id;
    registry.trainingTasks := registry.trainingTasks + [t];
    registry.journal := registry.journal + [TaskSaved(Training, id)];
    SetTaskStatus(registry, t, Queued, Some("Enqueued"), now);
    registry.journal := registry.journal + [Enqueued(TrainJob(code))];
  }

  /** `submit`: on a rejection or an exception nothing is written; otherwise
      the task is saved first, then its QUEUED status, then its job is put on
      the queue. The duplicate-name check covers the company only; a name
      another company uses passes it, and the save then raises
      IntegrityError on the unique name column, so nothing is written. */
  method Submit(registry: Registry, companyId: int, userId: int, name: string,
                enableFft: Json, downsample: Json, trainIters: Json,
                datasourceConfigurationId: int, configuration: Option<DatasourceConfiguration>,
                datasources: seq<int>, companyConfigurationId: int, companyConfiguration: Json,
                parentTrainingId: Json, parent: TrainingTask?, code: string, now: int)
    returns (r: Result<Response>)
    modifies registry`lastId, registry`trainingTasks, registry`journal
    ensures var plan := SubmitPlan(name, old(NameTaken(registry.trainingTasks, name, companyId)), enableFft,
                                   downsample, trainIters, configuration, datasources, companyId,
                                   companyConfiguration, parentTrainingId, parent, code);
      && (plan.Err? ==> r == Err(plan.error))
      && (plan.Ok? && plan.value.Refuse? ==> r == Ok(Rejected(plan.value.status, plan.value.message)))
      && (plan.Ok? && plan.value.Save? && old(NameInUse(registry.trainingTasks, name)) ==>
            r == Err(DuplicateNameError))
      && (plan.Ok? && plan.value.Save? && !old(NameInUse(registry.trainingTasks, name)) ==>
            && r.Ok? && r.value.Created?
            && r.value.task.configuration == plan.value.configuration
            && r.value.task.parentTrainingId == plan.value.parentId)
    ensures r.Ok? && r.value.Created? ==>
      var t := r.value.task;
      && fresh(t)
      && t.name == name && t.companyId == companyId && t.taskCode == code && t.userId == userId
      && t.datasourceConfigurationId == datasourceConfigurationId && t.datasourceIds == datasources
      && t.companyConfigurationId == companyConfigurationId
      && t.statuses == [StatusRecord(Queued, Some("Enqueued"), now)]
      && t.id == old(registry.lastId) + 1 && registry.lastId == t.id
      && registry.trainingTasks == old(registry.trainingTasks) + [t]
      && registry.journal == old(registry.journal)
           + [TaskSaved(Training, t.id), StatusSaved(Training, t.id, Queued, Some("Enqueued")), Enqueued(TrainJob(code))]
      && (forall u :: u in old(registry.trainingTasks) ==> u.name != name)
    ensures !(r.Ok? && r.value.Created?) ==>
      && registry.trainingTasks == old(registry.trainingTasks)
      && registry.journal == old(registry.journal) && registry.lastId == old(registry.lastId)
  {
    var plan := SubmitPlan(name, NameTaken(registry.trainingTasks, name, companyId), enableFft,
                           downsample, trainIters, configuration, datasources, companyId,
                           companyConfiguration, parentTrainingId, parent, code);
    if plan.Err? {
      return Err(plan.error);
    }
    if plan.value.Refuse? {
      return Ok(Rejected(plan.value.status, plan.value.message));
    }
    if NameInUse(registry.trainingTasks, name) {
      return Err(DuplicateNameError);
    }
    var task := SaveTask(registry, companyId, userId, name, datasourceConfigurationId, datasources,
                         companyConfigurationId, plan.value.configuration, plan.value.parentId, code, now);
    r := Ok(Created(task));
  }
}
