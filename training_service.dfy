/** The training service: status rows for training tasks, building a
    training configuration, rooting its model paths, the train/test split
    of the training data and the choice of trainings available for a
    datasource.
 */
module TrainingService {
  import opened Wrappers
  import opened Json
  import opened TaskStatus
  import opened Entities
  import opened Store
  import Paths
  import PyInt

  const DefaultLearnRate: real := 0.0001
  const DefaultLearnRateOnRetrain: real := DefaultLearnRate / 10.0

  const TrainItersPath: seq<string> := ModelConfigurationPath + ["train_iters"]
  const LearningRatePath: seq<string> := ModelConfigurationPath + ["learning_rate"]
  const TransformerConfigurationPath: seq<string> := ["transformer", "configuration"]
  const NumberOfSensorsPath: seq<string> := TransformerConfigurationPath + ["number_of_sensors"]
  const NumberOfTimestepsPath: seq<string> := TransformerConfigurationPath + ["number_of_timesteps"]
  const DownsampleFactorPath: seq<string> := TransformerConfigurationPath + ["downsample_factor"]

  // ---------------------------------------------------------------------
  // Status rows

  /** `set_task_status`: one status row for the task, nothing else. */
  method SetTaskStatus(registry: Registry, task: TrainingTask, status: State, message: Option<string>, now: int)
    modifies registry`journal, task`statuses
    ensures task.statuses == old(task.statuses) + [StatusRecord(status, message, now)]
    ensures registry.journal == old(registry.journal) + [StatusSaved(Training, task.id, status, message)]
  {
    task.statuses := task.statuses + [StatusRecord(status, message, now)];
    registry.journal := registry.journal + [StatusSaved(Training, task.id, status, message)];
  }

  // ---------------------------------------------------------------------
  // Building a training configuration

  /** The model's save path relative to the training root folder:
      `os.path.join(str(company_id), code, code)`. */
  function SavePath(companyId: int, code: string): string
  {
    Paths.Join(Paths.Join(PyInt.Show(companyId), code), code)
  }

  /** Under the training root folder, the save path is the task's data location. */
  lemma SavePathIsDataLocation(task: TrainingTask, root: string)
    ensures Paths.Join(root, SavePath(task.companyId, task.taskCode)) == task.TrainDataLocation(root)
  {
    var c := PyInt.Show(task.companyId);
    ShowIsName(task.companyId);
    Paths.JoinAssociative(root, Paths.Join(c, task.taskCode), task.taskCode);
    Paths.JoinAssociative(root, c, task.taskCode);
  }

  /** The dictionary of values a new training configuration overrides. */
  function Override(load: Json, save: string, trainIters: Json, learningRate: real,
                    enableFft: Json, sensors: Json, timesteps: Json, downsample: Json): Json
  {
    Obj(map[
      "model" := Obj(map["configuration" := Obj(map["model_configuration" := Obj(map[
        "load_path" := load,
        "save_path" := Str(save),
        "train_iters" := trainIters,
        "learning_rate" := Real(learningRate)])])]),
      "transformer" := Obj(map["configuration" := Obj(map[
        "enable_fft" := enableFft,
        "number_of_sensors" := sensors,
        "number_of_timesteps" := timesteps,
        "downsample_factor" := downsample])])])
  }

  /** The keys the override dictionary sets, without their values. */
  const OverrideKeys: Json := Override(Null, "", Null, 0.0, Null, Null, Null, Null)

  /** A path that misses the keys of the override misses the override,
      whatever values it carries. */
  lemma MissesOverride(load: Json, save: string, trainIters: Json, learningRate: real,
                       enableFft: Json, sensors: Json, timesteps: Json, downsample: Json, path: seq<string>)
    requires !Touches(OverrideKeys, path)
    ensures !Touches(Override(load, save, trainIters, learningRate, enableFft, sensors, timesteps, downsample), path)
  {
    var o := Override(load, save, trainIters, learningRate, enableFft, sensors, timesteps, downsample);
    if path != [] && path[0] == "model" {
      var m := o.fields["model"];
      var mk := OverrideKeys.fields["model"];
      assert !Touches(mk, path[1..]);
      if path[1..] != [] && path[1] == "configuration" {
        assert path[1..][1..] == path[2..];
        assert !Touches(mk.fields["configuration"], path[2..]);
        if path[2..] != [] && path[2] == "model_configuration" {
          assert path[2..][1..] == path[3..];
          var leafKeys := mk.fields["configuration"].fields["model_configuration"];
          var leaves := m.fields["configuration"].fields["model_configuration"];
          assert !Touches(leafKeys, path[3..]);
          assert path[3..] != [] && (path[3] in leafKeys.fields ==> Touches(leafKeys, path[3..]));
          assert leaves.fields.Keys == leafKeys.fields.Keys;
          assert !Touches(leaves, path[3..]);
        }
        assert !Touches(m.fields["configuration"], path[2..]);
      }
      assert !Touches(m, path[1..]);
    } else if path != [] && path[0] == "transformer" {
      var t := o.fields["transformer"];
      var tk := OverrideKeys.fields["transformer"];
      assert !Touches(tk, path[1..]);
      if path[1..] != [] && path[1] == "configuration" {
        assert path[1..][1..] == path[2..];
        var leafKeys := tk.fields["configuration"];
        var leaves := t.fields["configuration"];
        assert !Touches(leafKeys, path[2..]);
        assert path[2..] != [] && (path[2] in leafKeys.fields ==> Touches(leafKeys, path[2..]));
        assert leaves.fields.Keys == leafKeys.fields.Keys;
        assert !Touches(leaves, path[2..]);
      }
      assert !Touches(t, path[1..]);
    }
  }

  /** Whether the new task inherits from a parent: the parent id is truthy
      and the lookup by that id found a task. */
  predicate Inherits(parentTrainingId: Json, parent: TrainingTask?)
  {
    Truthy(parentTrainingId) && parent != null
  }

  /** `create_training_configuration`. `parent` is the task the lookup by
      `parentTrainingId` returns (null when there is none); it is consulted
      only when the id is truthy. Failed subscripts raise in the order the
      source evaluates them: the company's `train_iters`, then the parent's
      save path and FFT flag, then the datasource meta values. */
  function CreateTrainingConfiguration(code: string, companyId: int, company: Json, meta: Json,
                                       enableFft: Json, parentTrainingId: Json, parent: TrainingTask?): (r: Result<Json>)
    reads parent
    ensures r.Ok? <==>
      Get(company, TrainItersPath).Ok?
      && (Inherits(parentTrainingId, parent) ==> parent.TrainingSavePath().Ok? && parent.HasFftEnabled().Ok?)
      && Get(meta, ["number_of_sensors"]).Ok? && Get(meta, ["number_of_timesteps"]).Ok?
    ensures r.Err? && Get(company, TrainItersPath).Err? ==> r.error == Get(company, TrainItersPath).error
  {
    var save := SavePath(companyId, code);
    var inherits := Inherits(parentTrainingId, parent);
    var trainIters := Get(company, TrainItersPath);
    var load := if inherits then parent.TrainingSavePath() else Ok(Str(save));
    var fft := if inherits then parent.HasFftEnabled() else Ok(enableFft);
    var lr := if inherits then DefaultLearnRateOnRetrain else DefaultLearnRate;
    var sensors := Get(meta, ["number_of_sensors"]);
    var timesteps := Get(meta, ["number_of_timesteps"]);
    if trainIters.Err? then Err(trainIters.error)
    else if load.Err? then Err(load.error)
    else if fft.Err? then Err(fft.error)
    else if sensors.Err? then Err(sensors.error)
    else if timesteps.Err? then Err(timesteps.error)
    else
      var downsample := GetOr(meta, "downsample_factor", Int(4));
      Ok(Merge(company, Override(load.value, save, trainIters.value, lr, fft.value,
                                 sensors.value, timesteps.value, downsample.value)))
  }

  /** A leaf of a section of the override is what the merged configuration
      holds there. */
  lemma SectionLeaf(base: Json, over: Json, section: seq<string>, key: string)
    requires Get(over, section).Ok? && Get(over, section).value.Obj?
    requires key in Get(over, section).value.fields && !Get(over, section).value.fields[key].Obj?
    ensures Get(Merge(base, over), section + [key]) == Ok(Get(over, section).value.fields[key])
  {
    GetConcat(over, section, [key]);
    MergeKeepsOverrideLeaf(base, over, section + [key], Get(over, section).value.fields[key]);
  }

  lemma OverrideSections(load: Json, save: string, trainIters: Json, learningRate: real,
                         enableFft: Json, sensors: Json, timesteps: Json, downsample: Json)
    ensures var o := Override(load, save, trainIters, learningRate, enableFft, sensors, timesteps, downsample);
      && Get(o, ModelConfigurationPath) == Ok(Obj(map[
           "load_path" := load, "save_path" := Str(save),
           "train_iters" := trainIters, "learning_rate" := Real(learningRate)]))
      && Get(o, TransformerConfigurationPath) == Ok(Obj(map[
           "enable_fft" := enableFft, "number_of_sensors" := sensors,
           "number_of_timesteps" := timesteps, "downsample_factor" := downsample]))
  {
  }

  /** Every value of the override dictionary is what the merged configuration
      holds at that path, unless the value is itself a dictionary. */
  lemma OverrideLeaves(base: Json, load: Json, save: string, trainIters: Json, learningRate: real,
                       enableFft: Json, sensors: Json, timesteps: Json, downsample: Json)
    ensures var m := Merge(base, Override(load, save, trainIters, learningRate, enableFft, sensors, timesteps, downsample));
      && Get(m, SavePathPath) == Ok(Str(save))
      && Get(m, LearningRatePath) == Ok(Real(learningRate))
      && (!load.Obj? ==> Get(m, LoadPathPath) == Ok(load))
      && (!trainIters.Obj? ==> Get(m, TrainItersPath) == Ok(trainIters))
      && (!enableFft.Obj? ==> Get(m, EnableFftPath) == Ok(enableFft))
      && (!sensors.Obj? ==> Get(m, NumberOfSensorsPath) == Ok(sensors))
      && (!timesteps.Obj? ==> Get(m, NumberOfTimestepsPath) == Ok(timesteps))
      && (!downsample.Obj? ==> Get(m, DownsampleFactorPath) == Ok(downsample))
  {
    var o := Override(load, save, trainIters, learningRate, enableFft, sensors, timesteps, downsample);
    OverrideSections(load, save, trainIters, learningRate, enableFft, sensors, timesteps, downsample);
    SectionLeaf(base, o, ModelConfigurationPath, "save_path");
    SectionLeaf(base, o, ModelConfigurationPath, "learning_rate");
    if !load.Obj? { SectionLeaf(base, o, ModelConfigurationPath, "load_path"); }
    if !trainIters.Obj? { SectionLeaf(base, o, ModelConfigurationPath, "train_iters"); }
    if !enableFft.Obj? { SectionLeaf(base, o, TransformerConfigurationPath, "enable_fft"); }
    if !sensors.Obj? { SectionLeaf(base, o, TransformerConfigurationPath, "number_of_sensors"); }
    if !timesteps.Obj? { SectionLeaf(base, o, TransformerConfigurationPath, "number_of_timesteps"); }
    if !downsample.Obj? { SectionLeaf(base, o, TransformerConfigurationPath, "downsample_factor"); }
  }

  /** A new task without a parent: it loads from where it saves, which is
      `company_id/code/code`, with the default learning rate and the FFT flag
      the caller passed. */
  lemma FreshTrainingConfiguration(code: string, companyId: int, company: Json, meta: Json,
                                   enableFft: Json, parentTrainingId: Json, parent: TrainingTask?)
    requires !Inherits(parentTrainingId, parent)
    requires CreateTrainingConfiguration(code, companyId, company, meta, enableFft, parentTrainingId, parent).Ok?
    ensures var c := CreateTrainingConfiguration(code, companyId, company, meta, enableFft, parentTrainingId, parent).value;
      && Get(c, SavePathPath) == Ok(Str(SavePath(companyId, code)))
      && Get(c, LoadPathPath) == Ok(Str(SavePath(companyId, code)))
      && Get(c, LearningRatePath) == Ok(Real(DefaultLearnRate))
      && (!enableFft.Obj? ==> Get(c, EnableFftPath) == Ok(enableFft))
  {
    var trainIters := Get(company, TrainItersPath).value;
    var sensors := Get(meta, ["number_of_sensors"]).value;
    var timesteps := Get(meta, ["number_of_timesteps"]).value;
    var downsample := GetOr(meta, "downsample_factor", Int(4)).value;
    OverrideLeaves(company, Str(SavePath(companyId, code)), SavePath(companyId, code), trainIters,
                   DefaultLearnRate, enableFft, sensors, timesteps, downsample);
  }

  /** A retrain of an existing parent: it loads from the parent's save path,
      inherits the parent's FFT flag and trains ten times more slowly; the
      number of iterations still comes from the company configuration. */
  lemma RetrainConfiguration(code: string, companyId: int, company: Json, meta: Json,
                             enableFft: Json, parentTrainingId: Json, parent: TrainingTask?)
    requires Inherits(parentTrainingId, parent)
    requires CreateTrainingConfiguration(code, companyId, company, meta, enableFft, parentTrainingId, parent).Ok?
    ensures var c := CreateTrainingConfiguration(code, companyId, company, meta, enableFft, parentTrainingId, parent).value;
      && Get(c, SavePathPath) == Ok(Str(SavePath(companyId, code)))
      && Get(c, LearningRatePath) == Ok(Real(DefaultLearnRateOnRetrain))
      && (!parent.TrainingSavePath().value.Obj? ==> Get(c, LoadPathPath) == parent.TrainingSavePath())
      && (!parent.HasFftEnabled().value.Obj? ==> Get(c, EnableFftPath) == parent.HasFftEnabled())
      && (!Get(company, TrainItersPath).value.Obj? ==> Get(c, TrainItersPath) == Get(company, TrainItersPath))
  {
    var sensors := Get(meta, ["number_of_sensors"]).value;
    var timesteps := Get(meta, ["number_of_timesteps"]).value;
    var downsample := GetOr(meta, "downsample_factor", Int(4)).value;
    OverrideLeaves(company, parent.TrainingSavePath().value, SavePath(companyId, code),
                   Get(company, TrainItersPath).value, DefaultLearnRateOnRetrain,
                   parent.HasFftEnabled().value, sensors, timesteps, downsample);
  }

  /** The transformer section copies the sensor and timestep counts from the
      datasource meta and takes its downsample factor from there, 4 when the
      meta has none. */
  lemma TransformerFromMeta(code: string, companyId: int, company: Json, meta: Json,
                            enableFft: Json, parentTrainingId: Json, parent: TrainingTask?)
    requires CreateTrainingConfiguration(code, companyId, company, meta, enableFft, parentTrainingId, parent).Ok?
    ensures var c := CreateTrainingConfiguration(code, companyId, company, meta, enableFft, parentTrainingId, parent).value;
      && (!Get(meta, ["number_of_sensors"]).value.Obj? ==> Get(c, NumberOfSensorsPath) == Get(meta, ["number_of_sensors"]))
      && (!Get(meta, ["number_of_timesteps"]).value.Obj? ==> Get(c, NumberOfTimestepsPath) == Get(meta, ["number_of_timesteps"]))
      && ("downsample_factor" !in meta.fields ==> Get(c, DownsampleFactorPath) == Ok(Int(4)))
      && ("downsample_factor" in meta.fields && !meta.fields["downsample_factor"].Obj?
          ==> Get(c, DownsampleFactorPath) == Ok(meta.fields["downsample_factor"]))
  {
    var inherits := Inherits(parentTrainingId, parent);
    var load := if inherits then parent.TrainingSavePath().value else Str(SavePath(companyId, code));
    var fft := if inherits then parent.HasFftEnabled().value else enableFft;
    var lr := if inherits then DefaultLearnRateOnRetrain else DefaultLearnRate;
    OverrideLeaves(company, load, SavePath(companyId, code), Get(company, TrainItersPath).value, lr, fft,
                   Get(meta, ["number_of_sensors"]).value, Get(meta, ["number_of_timesteps"]).value,
                   GetOr(meta, "downsample_factor", Int(4)).value);
  }

  /** Everything else in the company configuration is kept: a path that
      misses the keys of the override, such as either `class_name` or a
      sibling of `train_iters`, finds what it finds in the company
      configuration. */
  lemma KeepsCompanyConfiguration(code: string, companyId: int, company: Json, meta: Json,
                                  enableFft: Json, parentTrainingId: Json, parent: TrainingTask?, path: seq<string>)
    requires CreateTrainingConfiguration(code, companyId, company, meta, enableFft, parentTrainingId, parent).Ok?
    requires !Touches(OverrideKeys, path)
    ensures Find(CreateTrainingConfiguration(code, companyId, company, meta, enableFft, parentTrainingId, parent).value, path)
         == Find(company, path)
  {
    var inherits := Inherits(parentTrainingId, parent);
    var load := if inherits then parent.TrainingSavePath().value else Str(SavePath(companyId, code));
    var fft := if inherits then parent.HasFftEnabled().value else enableFft;
    var lr := if inherits then DefaultLearnRateOnRetrain else DefaultLearnRate;
    var o := Override(load, SavePath(companyId, code), Get(company, TrainItersPath).value, lr, fft,
                      Get(meta, ["number_of_sensors"]).value, Get(meta, ["number_of_timesteps"]).value,
                      GetOr(meta, "downsample_factor", Int(4)).value);
    MissesOverride(load, SavePath(companyId, code), Get(company, TrainItersPath).value, lr, fft,
                   Get(meta, ["number_of_sensors"]).value, Get(meta, ["number_of_timesteps"]).value,
                   GetOr(meta, "downsample_factor", Int(4)).value, path);
    MergeKeepsBaseElsewhere(company, o, path);
  }

  /** Among the company settings kept: the model's and the transformer's
      class names, and the batch size beside `train_iters`. */
  lemma CompanyKeepsClassNames(code: string, companyId: int, company: Json, meta: Json,
                               enableFft: Json, parentTrainingId: Json, parent: TrainingTask?)
    requires CreateTrainingConfiguration(code, companyId, company, meta, enableFft, parentTrainingId, parent).Ok?
    ensures var c := CreateTrainingConfiguration(code, companyId, company, meta, enableFft, parentTrainingId, parent).value;
      && Find(c, ["model", "class_name"]) == Find(company, ["model", "class_name"])
      && Find(c, ["transformer", "class_name"]) == Find(company, ["transformer", "class_name"])
      && Find(c, ModelConfigurationPath + ["batch_size"]) == Find(company, ModelConfigurationPath + ["batch_size"])
  {
    ClassNamesMissOverride();
    KeepsCompanyConfiguration(code, companyId, company, meta, enableFft, parentTrainingId, parent, ["model", "class_name"]);
    KeepsCompanyConfiguration(code, companyId, company, meta, enableFft, parentTrainingId, parent, ["transformer", "class_name"]);
    KeepsCompanyConfiguration(code, companyId, company, meta, enableFft, parentTrainingId, parent, ModelConfigurationPath + ["batch_size"]);
  }

  lemma ClassNamesMissOverride()
    ensures !Touches(OverrideKeys, ["model", "class_name"])
    ensures !Touches(OverrideKeys, ["transformer", "class_name"])
    ensures !Touches(OverrideKeys, ModelConfigurationPath + ["batch_size"])
  {
    var model := OverrideKeys.fields["model"];
    assert !Touches(model, ["model", "class_name"][1..]);
    assert !Touches(OverrideKeys.fields["transformer"], ["transformer", "class_name"][1..]);
    var batch := ModelConfigurationPath + ["batch_size"];
    var leaves := model.fields["configuration"].fields["model_configuration"];
    assert !Touches(leaves, batch[3..]);
    assert !Touches(model.fields["configuration"], batch[2..]);
    assert !Touches(model, batch[1..]);
  }

  // ---------------------------------------------------------------------
  // Rooting the model paths

  /** The object the training runner works on: a copy of a task's
      configuration (`ObjectWithConfiguration`). */
  class ObjectWithConfiguration {
    var configuration: Json

    /** The configuration is a value, so holding it is holding a deep copy. */
    constructor (configuration: Json)
      ensures this.configuration == configuration
    {
      this.configuration := configuration;
    }
  }

  /** `os.path.join(root, v)`: a TypeError unless `v` is a string. */
  function JoinValue(root: string, v: Json): (r: Result<string>)
    ensures r.Ok? <==> v.Str?
    ensures r.Err? ==> r.error.TypeError?
  {
    if v.Str? then Ok(Paths.Join(root, v.s))
    else Err(TypeError("join() argument must be str, bytes, or os.PathLike object, not '" + TypeName(v) + "'"))
  }

  /** One step of the rewrite: the model path under `key` becomes
      `os.path.join(root, old value)`. */
  function RootPath(c: Json, root: string, key: string): (r: Result<Json>)
    ensures r.Ok? <==> Get(c, ModelConfigurationPath + [key]).Ok? && Get(c, ModelConfigurationPath + [key]).value.Str?
  {
    var path := ModelConfigurationPath + [key];
    var v :- Get(c, path);
    var full :- JoinValue(root, v);
    RootPathSucceeds(c, key);
    Set(c, path, Str(full))
  }

  lemma RootPathSucceeds(c: Json, key: string)
    requires Get(c, ModelConfigurationPath + [key]).Ok?
    ensures forall v :: Set(c, ModelConfigurationPath + [key], v).Ok?
  {
    var path := ModelConfigurationPath + [key];
    assert path[..|path| - 1] == ModelConfigurationPath;
    GetConcat(c, ModelConfigurationPath, [key]);
    forall v ensures Set(c, path, v).Ok? {
      SetSucceeds(c, path, v);
    }
  }

  /** The configuration after `update_root_folder_in_model_config`, and the
      exception it raises, if any. The load path is rewritten first, so a
      failure at the save path leaves the load path already rewritten. */
  function RootFolderRewrite(c: Json, root: string): (Json, Option<Error>)
  {
    match RootPath(c, root, "load_path")
    case Err(e) => (c, Some(e))
    case Ok(c1) =>
      match RootPath(c1, root, "save_path")
      case Err(e) => (c1, Some(e))
      case Ok(c2) => (c2, None)
  }

  /** `update_root_folder_in_model_config`, in place on the object. */
  method UpdateRootFolder(obj: ObjectWithConfiguration, root: string) returns (e: Option<Error>)
    modifies obj
    ensures (obj.configuration, e) == RootFolderRewrite(old(obj.configuration), root)
  {
    var load := RootPath(obj.configuration, root, "load_path");
    if load.Err? {
      return Some(load.error);
    }
    obj.configuration := load.value;
    var save := RootPath(obj.configuration, root, "save_path");
    if save.Err? {
      return Some(save.error);
    }
    obj.configuration := save.value;
    e := None;
  }

  /** The rewrite succeeds exactly when both model paths are strings; then
      each becomes `os.path.join(root, old value)` and every path that
      diverges from both reads as before. */
  lemma RootFolderRewriteSucceeds(c: Json, root: string, q: seq<string>)
    requires Diverge(LoadPathPath, q) && Diverge(SavePathPath, q)
    ensures RootFolderRewrite(c, root).1.None? <==>
      Get(c, LoadPathPath).Ok? && Get(c, LoadPathPath).value.Str? &&
      Get(c, SavePathPath).Ok? && Get(c, SavePathPath).value.Str?
    ensures RootFolderRewrite(c, root).1.None? ==>
      var d := RootFolderRewrite(c, root).0;
      && Get(d, LoadPathPath) == Ok(Str(Paths.Join(root, Get(c, LoadPathPath).value.s)))
      && Get(d, SavePathPath) == Ok(Str(Paths.Join(root, Get(c, SavePathPath).value.s)))
      && Get(d, q) == Get(c, q)
  {
    var load := RootPath(c, root, "load_path");
    if load.Ok? {
      var c1 := load.value;
      var full := Paths.Join(root, Get(c, LoadPathPath).value.s);
      GetAfterSet(c, LoadPathPath, Str(full));
      GetAfterSetElsewhere(c, LoadPathPath, Str(full), q);
      assert LoadPathPath[3] != SavePathPath[3];
      GetAfterSetElsewhere(c, LoadPathPath, Str(full), SavePathPath);
      var save := RootPath(c1, root, "save_path");
      if save.Ok? {
        var sfull := Paths.Join(root, Get(c1, SavePathPath).value.s);
        GetAfterSet(c1, SavePathPath, Str(sfull));
        GetAfterSetElsewhere(c1, SavePathPath, Str(sfull), q);
        assert SavePathPath[3] != LoadPathPath[3];
        GetAfterSetElsewhere(c1, SavePathPath, Str(sfull), LoadPathPath);
      }
    }
  }

  /** A failure leaves the configuration as it was, except that a failure
      at the save path comes after the load path was rewritten. */
  lemma RootFolderRewriteFailure(c: Json, root: string)
    requires RootFolderRewrite(c, root).1.Some?
    ensures !(Get(c, LoadPathPath).Ok? && Get(c, LoadPathPath).value.Str?) ==> RootFolderRewrite(c, root).0 == c
    ensures Get(c, LoadPathPath).Ok? && Get(c, LoadPathPath).value.Str? ==>
      Get(RootFolderRewrite(c, root).0, LoadPathPath) == Ok(Str(Paths.Join(root, Get(c, LoadPathPath).value.s)))
  {
    var load := RootPath(c, root, "load_path");
    if load.Ok? {
      GetAfterSet(c, LoadPathPath, Str(Paths.Join(root, Get(c, LoadPathPath).value.s)));
    }
  }

  // ---------------------------------------------------------------------
  // Training data

  /** `_read_samples`: the reshaped flights, one per sample, in order. The
      reshaping belongs to the engine and is a parameter here. */
  method ReadSamples<S, F>(samples: seq<S>, reshape: S -> F) returns (flights: seq<F>)
    ensures |flights| == |samples|
    ensures forall i :: 0 <= i < |samples| ==> flights[i] == reshape(samples[i])
  {
    flights := [];
    for i := 0 to |samples|
      invariant |flights| == i
      invariant forall j :: 0 <= j < i ==> flights[j] == reshape(samples[j])
    {
      flights := flights + [reshape(samples[i])];
    }
  }

  /** `int(n * 0.8)`, the number of training rows among `n`. */
  function UpperLimit(n: nat): (u: nat)
    ensures u <= n
  {
    (4 * n) / 5
  }

  /** `get_train_data`: the leading rows. */
  function TrainData<T>(data: seq<T>): seq<T>
  {
    data[..UpperLimit(|data|)]
  }

  /** `get_test_data`: the remaining rows. */
  function TestData<T>(data: seq<T>): seq<T>
  {
    data[UpperLimit(|data|)..]
  }

  /** The two parts put back together are the data: no row is lost,
      repeated or moved, and the training part holds four fifths of the rows,
      rounded down. */
  lemma SplitPartitions<T>(data: seq<T>)
    ensures TrainData(data) + TestData(data) == data
    ensures 5 * |TrainData(data)| <= 4 * |data| < 5 * |TrainData(data)| + 5
    ensures |TestData(data)| == |data| - |TrainData(data)|
    ensures forall i :: 0 <= i < |TestData(data)| ==> TestData(data)[i] == data[|TrainData(data)| + i]
  {
  }

  // ---------------------------------------------------------------------
  // Trainings available for a datasource

  /** A training a datasource can be checked with: one on the datasource's
      configuration whose current state is SUCCESSFUL. */
  predicate AvailableFor(t: TrainingTask, datasourceConfigurationId: int)
    reads t
  {
    t.datasourceConfigurationId == datasourceConfigurationId && t.Status() == Some(Successful)
  }

  /** `get_available_training_for_datasource`. */
  function AvailableTrainingForDatasource(tasks: seq<TrainingTask>, datasourceConfigurationId: int): (r: seq<TrainingTask>)
    reads set t | t in tasks
    ensures forall t :: t in r ==> t in tasks && AvailableFor(t, datasourceConfigurationId)
    ensures forall t :: t in tasks && AvailableFor(t, datasourceConfigurationId) ==> t in r
    ensures |r| <= |tasks|
  {
    if tasks == [] then []
    else
      (if AvailableFor(tasks[0], datasourceConfigurationId) then [tasks[0]] else [])
      + AvailableTrainingForDatasource(tasks[1..], datasourceConfigurationId)
  }

  /** The filter keeps the order of the query: filtering a concatenation is
      concatenating the filtered parts. */
  lemma {:induction false} AvailableKeepsOrder(a: seq<TrainingTask>, b: seq<TrainingTask>, id: int)
    ensures AvailableTrainingForDatasource(a + b, id)
         == AvailableTrainingForDatasource(a, id) + AvailableTrainingForDatasource(b, id)
  {
    if a != [] {
      assert (a + b)[1..] == a[1..] + b;
      AvailableKeepsOrder(a[1..], b, id);
    } else {
      assert a + b == b;
    }
  }
}
