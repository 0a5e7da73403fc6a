/**
 * The results step: models are loaded for the property type, the inputs are
 * preprocessed, and the price is predicted. The imputer, scaler, clustering
 * model and regressor are opaque: `transformOk` says whether the imputer and
 * scaler transforms ran without raising, and `raw` is what the regressor
 * returns (`None` when it raised). What the model does capture is which
 * dictionary keys each stage looks up, so that a partial load from
 * `cargar_modelos` has its effect.
 */
module Estimation {
  import opened Options
  import Pricing
  import opened Artifacts

  /** What the results step shows: the "could not process the data" error,
      the "could not compute the price" error, or the estimate. */
  datatype Outcome = ProcessingFailed | PredictionFailed | Shown(estimate: Pricing.Estimate)

  /** `preprocesar_datos` returns a frame: it looks up 'imputador' and
      'escalador' (a missing key raises and is caught), and a failing
      cluster lookup only yields a `None` group, which does not stop it. */
  predicate Preprocessed(models: map<Role, Artifact>, transformOk: bool) {
    Imputador in models && Escalador in models && transformOk
  }

  /** The results step of the wizard. */
  function Results(models: map<Role, Artifact>, transformOk: bool, raw: Option<real>, lo: real, hi: real): (o: Outcome)
    requires 0.0 < lo < 1.0 && 1.0 <= hi
    ensures o.ProcessingFailed? <==> !Preprocessed(models, transformOk)
    ensures o.Shown? <==>
      Preprocessed(models, transformOk) && Modelo in models && raw.Some? &&
      Pricing.RoundedPrice(raw.value) >= 0
    ensures o.Shown? ==>
      o.estimate.price == Pricing.RoundedPrice(raw.value) &&
      0 <= o.estimate.low <= o.estimate.price <= o.estimate.high
  {
    if !Preprocessed(models, transformOk) then ProcessingFailed
    else
      var predicted := if Modelo in models then raw else None;
      match Pricing.PredictPrice(predicted, lo, hi)
      case None => PredictionFailed
      case Some(e) => Shown(e)
  }

  /** An estimate can only be shown when the regressor, scaler and imputer
      files all exist. */
  lemma ShownNeedsFirstThreeFiles(tipo: string, fileExists: string -> bool, transformOk: bool,
                                  raw: Option<real>, lo: real, hi: real)
    requires 0.0 < lo < 1.0 && 1.0 <= hi
    requires Results(Loaded(tipo, fileExists), transformOk, raw, lo, hi).Shown?
    ensures PrefixExists(tipo, fileExists, 3)
  {
    LoadedHas(tipo, fileExists, Imputador);
  }

  /** A missing clustering file does not stop the estimate: the loop has
      already loaded the other three, and the group feature is left to the
      imputer. */
  lemma MissingClustererTolerated(tipo: string, fileExists: string -> bool, x: real, lo: real, hi: real)
    requires 0.0 < lo < 1.0 && 1.0 <= hi
    requires PrefixExists(tipo, fileExists, 3) && !fileExists(FileName(tipo, Agrupamiento))
    requires Pricing.RoundedPrice(x) >= 0
    ensures Agrupamiento !in Loaded(tipo, fileExists)
    ensures Results(Loaded(tipo, fileExists), true, Some(x), lo, hi).Shown?
  {
    LoadedHas(tipo, fileExists, Modelo);
    LoadedHas(tipo, fileExists, Escalador);
    LoadedHas(tipo, fileExists, Imputador);
    LoadedHas(tipo, fileExists, Agrupamiento);
  }

  /** A missing regressor file leaves the dictionary empty, so the data are
      never processed. */
  lemma MissingRegressorBlocks(tipo: string, fileExists: string -> bool, transformOk: bool,
                               raw: Option<real>, lo: real, hi: real)
    requires 0.0 < lo < 1.0 && 1.0 <= hi
    requires !fileExists(FileName(tipo, Modelo))
    ensures Loaded(tipo, fileExists) == map[]
    ensures Results(Loaded(tipo, fileExists), transformOk, raw, lo, hi) == ProcessingFailed
  {
    assert FirstMissing(tipo, fileExists) == 0 by {
      assert Order[0] == Modelo;
    }
  }

}
