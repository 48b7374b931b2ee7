/** The arithmetic behind the diagnostic plots: which rows of a chunk's
    spectrum are shown and at which frequencies, the downsampling factor
    read from the training configuration, and the sample rate of the time
    plot.
 */
module DiagnosticView {
  import opened Wrappers
  import opened Json
  import PyInt
  import Chunks
  import TrainingService
  import TrainingView

  /** The end (exclusive) of the retained rows of an n-row spectrum: the
      centre for an even n, one past it for an odd n. */
  function FftUpper(n: nat): (u: nat)
    ensures n % 2 == 0 ==> u == n / 2
    ensures n % 2 == 1 ==> u == (n - 1) / 2 + 1
  {
    if n % 2 == 0 then n / 2 else (n - 1) / 2 + 1
  }

  /** `rows[lo:hi]` with Python's clamping: bounds past the end stop at
      the end, and an empty slice when `hi` is below `lo`. */
  function Slice<T>(rows: seq<T>, lo: nat, hi: nat): (r: seq<T>)
    ensures lo <= hi <= |rows| ==> r == rows[lo..hi]
    ensures hi <= lo ==> r == []
    ensures lo <= |rows| < hi ==> r == rows[lo..]
    ensures |rows| <= lo ==> r == []
  {
    var l := if lo <= |rows| then lo else |rows|;
    var h := if hi <= |rows| then hi else |rows|;
    if h <= l then [] else rows[l..h]
  }

  /** The positive half of the spectrum, `whole_signal_df[1:upper]`. */
  function PositiveSpectrum<T>(rows: seq<T>): seq<T>
  {
    Slice(rows, 1, FftUpper(|rows|))
  }

  /** Row 0 (the constant term) is never shown; row k of the spectrum is
      shown for 1 <= k < upper, and there are (n - 1) div 2 of them. */
  lemma PositiveSpectrumRows<T>(rows: seq<T>)
    ensures var r := PositiveSpectrum(rows);
      && |r| == (if |rows| == 0 then 0 else (|rows| - 1) / 2)
      && (forall j :: 0 <= j < |r| ==> r[j] == rows[j + 1])
      && (|rows| >= 2 ==> r == rows[1..FftUpper(|rows|)])
  {
  }

  /** For eight rows the spectrum is rows 1 to 3 (row 4, the Nyquist
      frequency, is dropped); for seven rows it is rows 1 to 3 as well. */
  lemma FftBoundsExamples<T>(rows: seq<T>)
    requires |rows| == 8 || |rows| == 7
    ensures PositiveSpectrum(rows) == rows[1..4]
  {
  }

  /** `_calculate_meaningful_fft_values`: the retained rows, each paired
      with its frequency from `calculate_frequency_index`. */
  function MeaningfulFftValues<T>(chunkDuration: real, rows: seq<T>, downsample: real): (r: Result<seq<(real, T)>>)
  {
    var spectrum := PositiveSpectrum(rows);
    var frequencies := Chunks.FrequencyIndex(|spectrum|, chunkDuration, downsample);
    if frequencies.Err? then Err(frequencies.error)
    else Ok(seq(|spectrum|, j requires 0 <= j < |spectrum| => (frequencies.value[j], spectrum[j])))
  }

  /** Row k of the signal is shown at frequency k * downsample / duration,
      for every retained row; a zero chunk duration raises. */
  lemma RowFrequencies<T>(chunkDuration: real, rows: seq<T>, downsample: real)
    ensures var r := MeaningfulFftValues(chunkDuration, rows, downsample);
      && (r.Err? <==> chunkDuration == 0.0)
      && (r.Ok? ==>
            && |r.value| == |PositiveSpectrum(rows)|
            && forall j :: 0 <= j < |r.value| ==>
                 r.value[j] == ((downsample / chunkDuration) * ((j + 1) as real), rows[j + 1]))
  {
    PositiveSpectrumRows(rows);
    var spectrum := PositiveSpectrum(rows);
    var frequencies := Chunks.FrequencyIndex(|spectrum|, chunkDuration, downsample);
    if frequencies.Ok? {
      var r := MeaningfulFftValues(chunkDuration, rows, downsample).value;
      forall j | 0 <= j < |r|
        ensures r[j] == ((downsample / chunkDuration) * ((j + 1) as real), rows[j + 1])
      {
        assert r[j] == (frequencies.value[j], spectrum[j]);
      }
    }
  }

  /** `configuration['transformer']['configuration'].get('downsample_factor', 4)`. */
  function DownsampleFactor(configuration: Json): (r: Result<Json>)
    ensures Get(configuration, TrainingService.TransformerConfigurationPath).Err? ==>
      r == Get(configuration, TrainingService.TransformerConfigurationPath)
  {
    match Get(configuration, TrainingService.TransformerConfigurationPath)
    case Err(e) => Err(e)
    case Ok(section) => GetOr(section, "downsample_factor", Int(4))
  }

  /** The factor is the stored one, 4 when the section lacks it, and the
      lookup fails when the section is missing or not a dictionary. */
  lemma DownsampleFactorDefault(configuration: Json)
    ensures var path := TrainingService.TransformerConfigurationPath;
      var section := Get(configuration, path);
      && (DownsampleFactor(configuration).Ok? <==> section.Ok? && section.value.Obj?)
      && (section.Ok? && section.value.Obj? && "downsample_factor" !in section.value.fields ==>
            DownsampleFactor(configuration) == Ok(Int(4)))
      && (section.Ok? && section.value.Obj? && "downsample_factor" in section.value.fields ==>
            DownsampleFactor(configuration) == Get(configuration, path + ["downsample_factor"]))
  {
    GetConcat(configuration, TrainingService.TransformerConfigurationPath, ["downsample_factor"]);
  }

  /** The plots read back the downsampling factor submitted with the
      training. */
  lemma ReadsSubmittedDownsample(downsample: Json, timesteps: Json, trainIters: Json, configuration: Json)
    requires !downsample.Obj? && !timesteps.Obj? && !trainIters.Obj?
    ensures DownsampleFactor(TrainingView.AddTrainingParameters(downsample, timesteps, trainIters, configuration)) == Ok(downsample)
  {
    var c := TrainingView.AddTrainingParameters(downsample, timesteps, trainIters, configuration);
    TrainingView.ParametersAreSet(downsample, timesteps, trainIters, configuration);
    DownsampleFactorDefault(c);
    GetConcat(c, TrainingService.TransformerConfigurationPath, ["downsample_factor"]);
  }

  /** `original_sample_rate // downsample_factor`; a `bool` factor counts
      as 0 or 1. */
  function TimePlotSampleRate(originalSampleRate: int, downsample: Json): (r: Result<int>)
    ensures r.Ok? <==> (downsample.Int? && downsample.i != 0) || downsample == Bool(true)
    ensures downsample == Int(0) || downsample == Bool(false) ==> r == Err(IntDivisionByZero)
  {
    match downsample
    case Int(d) => if d == 0 then Err(IntDivisionByZero) else Ok(PyInt.FloorDiv(originalSampleRate, d))
    case Bool(b) => if b then Ok(originalSampleRate) else Err(IntDivisionByZero)
    case _ => Err(TypeError("unsupported operand type(s) for //: 'int' and '" + TypeName(downsample) + "'"))
  }

  /** With a positive factor d the plot rate is the largest q with
      q * d <= rate: the plot shows one point per d original samples. */
  lemma TimePlotRateFloors(originalSampleRate: int, d: int)
    requires d > 0
    ensures var r := TimePlotSampleRate(originalSampleRate, Int(d));
      r.Ok? && r.value * d <= originalSampleRate < (r.value + 1) * d
  {
    var q := PyInt.FloorDiv(originalSampleRate, d);
    assert d * q <= originalSampleRate < d * q + d;
  }
}
