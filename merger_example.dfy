/** The repository's own merge test case (tests/unit/interpreter/test_merger.py), checked
    against `Json.Merge`: each nesting level is merged separately, then the whole. */
module MergerExample {
  import opened Json

  const StartModelConfiguration: Json := Obj(map["train_iters" := Int(50000), "number_of_timesteps" := Int(2)])
  const StartModelSection: Json := Obj(map["model_configuration" := StartModelConfiguration])
  const StartModel: Json := Obj(map[
    "class_name" := Str("alphai_rickandmorty_oracle.detective.RickAndMortyDetective"),
    "configuration" := StartModelSection])
  const StartTransformerSection: Json := Obj(map[
    "do_local_normalisation" := Bool(false), "do_log_power" := Bool(false),
    "number_of_sensors" := Int(8), "number_of_timesteps" := Int(392), "perform_pca" := Bool(false)])
  const StartTransformer: Json := Obj(map[
    "class_name" := Str("alphai_watson.transformer.fft.FourierTransformer"),
    "configuration" := StartTransformerSection])
  const Starting: Json := Obj(map[
    "datasource_class" := Str("alphai_watson.datasource.flight.FlightDataSource"),
    "datasource_interpreter" := Str("FlightDatasourceInterpreter"),
    "model" := StartModel,
    "transformer" := StartTransformer])

  const TrainModelConfiguration: Json := Obj(map["train_iters" := Int(0)])
  const TrainModelSection: Json := Obj(map["model_configuration" := TrainModelConfiguration])
  const TrainModel: Json := Obj(map["configuration" := TrainModelSection])
  const TrainTransformerSection: Json := Obj(map["perform_fft" := Bool(false)])
  const TrainTransformer: Json := Obj(map["configuration" := TrainTransformerSection])
  const Training: Json := Obj(map["model" := TrainModel, "transformer" := TrainTransformer])

  const ExpectedModelConfiguration: Json := Obj(map["train_iters" := Int(0), "number_of_timesteps" := Int(2)])
  const ExpectedModelSection: Json := Obj(map["model_configuration" := ExpectedModelConfiguration])
  const ExpectedModel: Json := Obj(map[
    "class_name" := Str("alphai_rickandmorty_oracle.detective.RickAndMortyDetective"),
    "configuration" := ExpectedModelSection])
  const ExpectedTransformerSection: Json := Obj(map[
    "do_local_normalisation" := Bool(false), "do_log_power" := Bool(false),
    "number_of_sensors" := Int(8), "perform_fft" := Bool(false),
    "number_of_timesteps" := Int(392), "perform_pca" := Bool(false)])
  const ExpectedTransformer: Json := Obj(map[
    "class_name" := Str("alphai_watson.transformer.fft.FourierTransformer"),
    "configuration" := ExpectedTransformerSection])
  const Expected: Json := Obj(map[
    "datasource_class" := Str("alphai_watson.datasource.flight.FlightDataSource"),
    "datasource_interpreter" := Str("FlightDatasourceInterpreter"),
    "model" := ExpectedModel,
    "transformer" := ExpectedTransformer])

  lemma ModelConfigurationLevel()
    ensures Merge(StartModelConfiguration, TrainModelConfiguration) == ExpectedModelConfiguration
  {
    var r := Merge(StartModelConfiguration, TrainModelConfiguration);
    assert r.fields.Keys == ExpectedModelConfiguration.fields.Keys;
  }

  lemma ModelSectionLevel()
    ensures Merge(StartModelSection, TrainModelSection) == ExpectedModelSection
  {
    ModelConfigurationLevel();
    assert Merge(StartModelSection, TrainModelSection).fields == ExpectedModelSection.fields;
  }

  lemma ModelLevel()
    ensures Merge(StartModel, TrainModel) == ExpectedModel
  {
    ModelSectionLevel();
    var r := Merge(StartModel, TrainModel);
    assert r.fields.Keys == ExpectedModel.fields.Keys;
  }

  lemma TransformerSectionLevel()
    ensures Merge(StartTransformerSection, TrainTransformerSection) == ExpectedTransformerSection
  {
    var r := Merge(StartTransformerSection, TrainTransformerSection);
    assert r.fields.Keys == ExpectedTransformerSection.fields.Keys;
  }

  lemma TransformerLevel()
    ensures Merge(StartTransformer, TrainTransformer) == ExpectedTransformer
  {
    TransformerSectionLevel();
    var r := Merge(StartTransformer, TrainTransformer);
    assert r.fields.Keys == ExpectedTransformer.fields.Keys;
  }

  lemma TopLevelKeys()
    ensures Merge(Starting, Training).fields.Keys == Expected.fields.Keys
  {
  }

  lemma TopLevelModel()
    ensures Merge(Starting, Training).fields["model"] == ExpectedModel
  {
    ModelLevel();
  }

  lemma TopLevelTransformer()
    ensures Merge(Starting, Training).fields["transformer"] == ExpectedTransformer
  {
    TransformerLevel();
  }

  lemma TopLevelOthers()
    ensures Merge(Starting, Training).fields["datasource_class"] == Expected.fields["datasource_class"]
    ensures Merge(Starting, Training).fields["datasource_interpreter"] == Expected.fields["datasource_interpreter"]
  {
  }

  lemma TopLevelAgree()
    ensures forall k | k in Merge(Starting, Training).fields :: Merge(Starting, Training).fields[k] == Expected.fields[k]
  {
    TopLevelKeys();
    TopLevelModel();
    TopLevelTransformer();
    TopLevelOthers();
  }

  lemma MergerTestCase()
    ensures Merge(Starting, Training) == Expected
  {
    TopLevelKeys();
    TopLevelAgree();
    var r := Merge(Starting, Training);
    assert r.fields == Expected.fields;
  }
}
