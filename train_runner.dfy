/** The training job the worker runs for a queued training task: it marks
    the task started, roots the model paths of a copy of the configuration
    under the training folder, trains and calibrates the model, stores the
    calibration in the task's configuration and marks the task successful;
    an exception marks the task failed instead.

    The engine (datasource, transformer, detective, calibration estimate)
    is outside the model: whether training raised, and the calibration it
    estimated or the exception it raised, are parameters.
 */
module TrainRunner {
  import opened Wrappers
  import opened Json
  import opened TaskStatus
  import opened Entities
  import opened Store
  import opened TrainingService
  import DetectionService
  import Paths

  /** What `set_task_status` raises when the task lookup found nothing. */
  const NoTaskError: Error := AttributeError("'NoneType' object has no attribute 'id'")

  /** The string at `path`, if there is one. */
  function StrAt(c: Json, path: seq<string>): (r: Option<string>)
    ensures r.Some? <==> Get(c, path).Ok? && Get(c, path).value.Str?
    ensures r.Some? ==> Get(c, path) == Ok(Str(r.value))
  {
    match Get(c, path)
    case Ok(Str(s)) => Some(s)
    case _ => None
  }

  /** The task's configuration as the job persists it: on a retrain the
      load path becomes the save path (still relative to the training root)
      so that calibration does not restore the parent's checkpoint; then the
      calibration estimate is stored under `calibration`. */
  function Trained(c: Json, retrain: bool, calibration: Result<DetectionService.Calibration>): Result<Json>
  {
    var c1 :=
      if !retrain then Ok(c)
      else
        match Get(c, SavePathPath)
        case Err(e) => Err(e)
        case Ok(save) => Set(c, LoadPathPath, save);
    if c1.Err? then c1
    else if calibration.Err? then Err(calibration.error)
    else
      var cal := calibration.value;
      Set(c1.value, ["calibration"], DetectionService.CalibrationParameters(cal.k, cal.x0, cal.anomalyPrior))
  }

  /** A run of the job on a task that exists: the configuration it saves
      (None when it raised before saving), the exception it raised, and the
      load path the model had when training and when calibrating. */
  datatype TrainOutcome = TrainOutcome(
    saved: Option<Json>, error: Option<Error>, trainLoad: Option<string>, calibrationLoad: Option<string>)

  /** `TrainTask.run` after the STARTED status, for a task whose stored
      configuration is `c`. `engine` is the exception building the engine
      objects or training raised, if any. */
  function Train(c: Json, retrain: bool, root: string, engine: Option<Error>, calibration: Result<DetectionService.Calibration>): TrainOutcome
  {
    var (mocked, rewriteError) := RootFolderRewrite(c, root);
    if rewriteError.Some? then TrainOutcome(None, rewriteError, None, None)
    else if engine.Some? then TrainOutcome(None, engine, None, None)
    else
      var trainLoad := if retrain then StrAt(mocked, LoadPathPath) else None;
      var calibrationLoad :=
        if !retrain then None
        else match StrAt(c, SavePathPath)
          case Some(s) => Some(Paths.Join(root, s))
          case None => None;
      match Trained(c, retrain, calibration)
      case Err(e) => TrainOutcome(None, Some(e), trainLoad, calibrationLoad)
      case Ok(saved) => TrainOutcome(Some(saved), None, trainLoad, calibrationLoad)
  }

  /** Once the model paths are strings, nothing but the calibration
      estimate can make the persisting step fail. */
  lemma TrainedSucceeds(c: Json, retrain: bool, root: string, calibration: Result<DetectionService.Calibration>)
    requires RootFolderRewrite(c, root).1.None?
    ensures Trained(c, retrain, calibration).Ok? <==> calibration.Ok?
    ensures calibration.Err? ==> Trained(c, retrain, calibration) == Err(calibration.error)
  {
    assert LoadPathPath[0] != ["calibration"][0] && SavePathPath[0] != ["calibration"][0];
    RootFolderRewriteSucceeds(c, root, ["calibration"]);
    assert LoadPathPath == ModelConfigurationPath + ["load_path"];
    GetConcat(c, ModelConfigurationPath, ["load_path"]);
    var c1 := c;
    if retrain {
      var save := Get(c, SavePathPath).value;
      assert LoadPathPath[..|LoadPathPath| - 1] == ModelConfigurationPath;
      SetSucceeds(c, LoadPathPath, save);
      c1 := Set(c, LoadPathPath, save).value;
    }
    assert c1.Obj?;
  }

  /** The job succeeds exactly when both model paths are strings, the
      engine trains without raising and the calibration is estimated; it
      saves a configuration exactly when it succeeds. */
  lemma TrainSucceeds(c: Json, retrain: bool, root: string, engine: Option<Error>, calibration: Result<DetectionService.Calibration>)
    ensures var o := Train(c, retrain, root, engine, calibration);
      && (o.error.None? <==>
            Get(c, LoadPathPath).Ok? && Get(c, LoadPathPath).value.Str? &&
            Get(c, SavePathPath).Ok? && Get(c, SavePathPath).value.Str? &&
            engine.None? && calibration.Ok?)
      && (o.saved.Some? <==> o.error.None?)
      && (engine.Some? && RootFolderRewrite(c, root).1.None? ==> o.error == engine)
      && (calibration.Err? && o.error.Some? && RootFolderRewrite(c, root).1.None? && engine.None? ==>
            o.error == Some(calibration.error))
  {
    assert LoadPathPath[0] != ["calibration"][0] && SavePathPath[0] != ["calibration"][0];
    RootFolderRewriteSucceeds(c, root, ["calibration"]);
    if RootFolderRewrite(c, root).1.None? {
      TrainedSucceeds(c, retrain, root, calibration);
    }
  }

  /** What a successful job saves: the save path as it was, still relative
      to the training root (the rooted paths live only in the copy the
      engine used); the load path equal to the save path on a retrain and
      as it was otherwise; the calibration estimate, which is exactly what
      a detection reads back; and everything else as it was. */
  lemma SavedConfiguration(c: Json, retrain: bool, root: string, engine: Option<Error>, calibration: Result<DetectionService.Calibration>,
                           q: seq<string>)
    requires Train(c, retrain, root, engine, calibration).error.None?
    requires Diverge(LoadPathPath, q) && Diverge(["calibration"], q)
    ensures var saved := Train(c, retrain, root, engine, calibration).saved.value;
      && Get(saved, SavePathPath) == Get(c, SavePathPath)
      && Get(saved, LoadPathPath) == (if retrain then Get(c, SavePathPath) else Get(c, LoadPathPath))
      && DetectionService.LoadCalibrationValues(saved) == Ok(calibration.value)
      && Get(saved, q) == Get(c, q)
  {
    TrainSucceeds(c, retrain, root, engine, calibration);
    TrainedSucceeds(c, retrain, root, calibration);
    var cal := calibration.value;
    var params := DetectionService.CalibrationParameters(cal.k, cal.x0, cal.anomalyPrior);
    assert LoadPathPath[3] != SavePathPath[3];
    assert Diverge(["calibration"], LoadPathPath) && Diverge(["calibration"], SavePathPath);
    var c1 := c;
    if retrain {
      var save := Get(c, SavePathPath).value;
      c1 := Set(c, LoadPathPath, save).value;
      GetAfterSet(c, LoadPathPath, save);
      GetAfterSetElsewhere(c, LoadPathPath, save, SavePathPath);
      GetAfterSetElsewhere(c, LoadPathPath, save, q);
    }
    assert Trained(c, retrain, calibration) == Set(c1, ["calibration"], params);
    GetAfterSetElsewhere(c1, ["calibration"], params, SavePathPath);
    GetAfterSetElsewhere(c1, ["calibration"], params, LoadPathPath);
    GetAfterSetElsewhere(c1, ["calibration"], params, q);
    DetectionService.CalibrationRoundTrip(c1, cal.k, cal.x0, cal.anomalyPrior);
  }

  /** A first training starts from scratch (no load path for training or
      calibration); a retrain trains from the parent's checkpoint under the
      training root and calibrates from the checkpoint it has just saved,
      the rooted save path of the engine's copy. */
  lemma RetrainLoadPaths(c: Json, retrain: bool, root: string, engine: Option<Error>, calibration: Result<DetectionService.Calibration>)
    requires Train(c, retrain, root, engine, calibration).error.None?
    ensures var o := Train(c, retrain, root, engine, calibration);
      var mocked := RootFolderRewrite(c, root).0;
      && (!retrain ==> o.trainLoad.None? && o.calibrationLoad.None?)
      && (retrain ==>
            && Get(c, LoadPathPath).Ok? && Get(c, LoadPathPath).value.Str?
            && Get(c, SavePathPath).Ok? && Get(c, SavePathPath).value.Str?
            && o.trainLoad == Some(Paths.Join(root, Get(c, LoadPathPath).value.s))
            && o.calibrationLoad == Some(Paths.Join(root, Get(c, SavePathPath).value.s))
            && Get(mocked, SavePathPath) == Ok(Str(o.calibrationLoad.value)))
  {
    TrainSucceeds(c, retrain, root, engine, calibration);
    assert LoadPathPath[0] != ["calibration"][0] && SavePathPath[0] != ["calibration"][0];
    RootFolderRewriteSucceeds(c, root, ["calibration"]);
  }

  /** `TrainTask.run` once the task is found: STARTED, the rewrite of the
      engine's copy of the configuration, the engine, the calibration, and
      on success the saved configuration and SUCCESSFUL. */
  method RunFound(registry: Registry, t: TrainingTask, root: string, engine: Option<Error>,
                  calibration: Result<DetectionService.Calibration>, now: int)
    returns (e: Option<Error>, trainLoad: Option<string>, calibrationLoad: Option<string>)
    modifies registry`journal, t`statuses, t`configuration
    ensures var o := Train(old(t.configuration), t.IsRetrain(), root, engine, calibration);
      var started := StatusSaved(Training, t.id, Started, Some("Started"));
      && (e, trainLoad, calibrationLoad) == (o.error, o.trainLoad, o.calibrationLoad)
      && (o.error.None? ==>
            && t.configuration == o.saved.value
            && t.statuses == old(t.statuses)
                 + [StatusRecord(Started, Some("Started"), now), StatusRecord(Successful, Some("Successful"), now)]
            && registry.journal == old(registry.journal)
                 + [started, ConfigurationSaved(t.id, t.configuration),
                    StatusSaved(Training, t.id, Successful, Some("Successful"))])
      && (o.error.Some? ==>
            && t.configuration == old(t.configuration)
            && t.statuses == old(t.statuses) + [StatusRecord(Started, Some("Started"), now)]
            && registry.journal == old(registry.journal) + [started])
  {
    SetTaskStatus(registry, t, Started, Some("Started"), now);
    var mocked := new ObjectWithConfiguration(t.configuration);
    var rewriteError := UpdateRootFolder(mocked, root);
    if rewriteError.Some? {
      return rewriteError, None, None;
    }
    if engine.Some? {
      return engine, None, None;
    }
    var retrain := t.IsRetrain();
    trainLoad := if retrain then StrAt(mocked.configuration, LoadPathPath) else None;
    calibrationLoad := None;
    if retrain {
      var save := StrAt(t.configuration, SavePathPath);
      if save.Some? {
        calibrationLoad := Some(Paths.Join(root, save.value));
      }
    }
    var saved := Trained(t.configuration, retrain, calibration);
    if saved.Err? {
      return Some(saved.error), trainLoad, calibrationLoad;
    }
    t.configuration := saved.value;
    registry.journal := registry.journal + [ConfigurationSaved(t.id, t.configuration)];
    SetTaskStatus(registry, t, Successful, Some("Successful"), now);
    e := None;
  }

  /** `TrainTask.run` for the task with this code. A missing task makes
      the first status update raise, before anything is recorded. */
  method Run(registry: Registry, code: string, root: string, engine: Option<Error>, calibration: Result<DetectionService.Calibration>, now: int)
    returns (e: Option<Error>, trainLoad: Option<string>, calibrationLoad: Option<string>)
    modifies registry`journal, registry.trainingTasks`statuses, registry.trainingTasks`configuration
    ensures registry.TrainingByCode(code) == old(registry.TrainingByCode(code))
    ensures var t := old(registry.TrainingByCode(code));
      && (t == null ==>
            && e == Some(NoTaskError) && registry.journal == old(registry.journal)
            && forall u :: u in registry.trainingTasks ==> u.statuses == old(u.statuses) && u.configuration == old(u.configuration))
      && (t != null ==>
            var o := Train(old(t.configuration), t.IsRetrain(), root, engine, calibration);
            var started := StatusSaved(Training, t.id, Started, Some("Started"));
            && (e, trainLoad, calibrationLoad) == (o.error, o.trainLoad, o.calibrationLoad)
            && (o.error.None? ==>
                  && t.configuration == o.saved.value
                  && t.statuses == old(t.statuses)
                       + [StatusRecord(Started, Some("Started"), now), StatusRecord(Successful, Some("Successful"), now)]
                  && registry.journal == old(registry.journal)
                       + [started, ConfigurationSaved(t.id, t.configuration),
                          StatusSaved(Training, t.id, Successful, Some("Successful"))])
            && (o.error.Some? ==>
                  && t.configuration == old(t.configuration)
                  && t.statuses == old(t.statuses) + [StatusRecord(Started, Some("Started"), now)]
                  && registry.journal == old(registry.journal) + [started])
            && forall u :: u in registry.trainingTasks && u != t ==>
                 u.statuses == old(u.statuses) && u.configuration == old(u.configuration))
  {
    var t := registry.TrainingByCode(code);
    if t == null {
      return Some(NoTaskError), None, None;
    }
    e, trainLoad, calibrationLoad := RunFound(registry, t, root, engine, calibration, now);
  }

  /** `TrainTask.on_failure`: the exception's text becomes a FAILED status
      of the task with this code; with no such task the handler itself
      raises and nothing is recorded. */
  method OnFailure(registry: Registry, code: string, exception: Error, now: int) returns (e: Option<Error>)
    modifies registry`journal, registry.trainingTasks`statuses
    ensures var t := old(registry.TrainingByCode(code));
      && (t == null ==>
            && e == Some(NoTaskError) && registry.journal == old(registry.journal)
            && forall u :: u in registry.trainingTasks ==> u.statuses == old(u.statuses))
      && (t != null ==>
            && e.None?
            && t.statuses == old(t.statuses) + [StatusRecord(Failed, Some(Describe(exception)), now)]
            && registry.journal == old(registry.journal) + [StatusSaved(Training, t.id, Failed, Some(Describe(exception)))]
            && forall u :: u in registry.trainingTasks && u != t ==> u.statuses == old(u.statuses))
  {
    var t := registry.TrainingByCode(code);
    if t == null {
      return Some(NoTaskError);
    }
    SetTaskStatus(registry, t, Failed, Some(Describe(exception)), now);
    e := None;
  }

  /** The worker running the job: `run`, then `on_failure` when it raised.
      An existing task ends with exactly two new statuses, STARTED and then
      SUCCESSFUL or FAILED with the exception's text; a missing one gets
      none. */
  method Execute(registry: Registry, code: string, root: string, engine: Option<Error>, calibration: Result<DetectionService.Calibration>, now: int)
    modifies registry`journal, registry.trainingTasks`statuses, registry.trainingTasks`configuration
    ensures var t := old(registry.TrainingByCode(code));
      && (t == null ==>
            && registry.journal == old(registry.journal)
            && forall u :: u in registry.trainingTasks ==> u.statuses == old(u.statuses) && u.configuration == old(u.configuration))
      && (t != null ==>
            var o := Train(old(t.configuration), t.IsRetrain(), root, engine, calibration);
            var started := StatusSaved(Training, t.id, Started, Some("Started"));
            && t.Status() == Some(if o.error.None? then Successful else Failed)
            && t.statuses == old(t.statuses)
                 + [StatusRecord(Started, Some("Started"), now),
                    if o.error.None? then StatusRecord(Successful, Some("Successful"), now)
                    else StatusRecord(Failed, Some(Describe(o.error.value)), now)]
            && (o.error.None? ==>
                  && t.configuration == o.saved.value
                  && registry.journal == old(registry.journal)
                       + [started, ConfigurationSaved(t.id, o.saved.value), StatusSaved(Training, t.id, Successful, Some("Successful"))])
            && (o.error.Some? ==>
                  && t.configuration == old(t.configuration)
                  && registry.journal == old(registry.journal)
                       + [started, StatusSaved(Training, t.id, Failed, Some(Describe(o.error.value)))]))
    ensures forall u :: u in registry.trainingTasks && u != old(registry.TrainingByCode(code)) ==>
      u.statuses == old(u.statuses) && u.configuration == old(u.configuration)
  {
    var e, _, _ := Run(registry, code, root, engine, calibration, now);
    if e.Some? {
      ghost var journal := registry.journal;
      var _ := OnFailure(registry, code, e.value, now);
      assert registry.journal[..|journal|] == journal;
    }
  }
}
