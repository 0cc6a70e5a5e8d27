/** The prediction engine of utils/models.py: class HeartDiseasePredictor, which loads a scaler and
    five named classifiers, turns a request record into a feature vector, predicts with the primary
    model (or a heuristic when none loaded), and benchmarks every loaded model once, caching the result.

    Trained models, the scaler, pandas' CSV reader, train_test_split, scikit-learn's metric functions
    and Python's round() are opaque: they reach the model as the fields of an Oracles value, and each
    of them may raise (a Result). */
module Predictor {
  import opened Wrappers
  import opened Text
  import opened Ranking

  // ---------------------------------------------------------------------------------------------
  // Data model

  /** One numeric pandas cell: a real number, or inf/nan (pandas divides by zero without raising). */
  datatype Num = Finite(v: real) | NonFinite

  /** A pandas DataFrame: named columns and rows of cells. */
  datatype Frame = Frame(columns: seq<string>, rows: seq<seq<Num>>)

  /** What pandas guarantees of a frame it has read: distinct column names, one cell per column. */
  predicate WellFormed(f: Frame) {
    && (forall i, j :: 0 <= i < j < |f.columns| ==> f.columns[i] != f.columns[j])
    && (forall r :: 0 <= r < |f.rows| ==> |f.rows[r]| == |f.columns|)
  }

  /** The array model.predict returns: whether its dtype is float64, and its values. */
  datatype Predictions = Predictions(isFloat64: bool, values: seq<real>)

  /** A loaded classifier: an opaque handle, whether it has predict_proba,
      and its feature_names_in_ when it declares them. */
  datatype Classifier = Classifier(handle: nat, hasProba: bool, featureNames: Option<seq<string>>)

  datatype Scaler = Scaler(handle: nat)

  /** What os.path.exists and joblib.load make of one artifact file. */
  datatype Probe<T> = Absent | Unloadable(reason: string) | Present(artifact: T)

  /** The model directory, as seen through the two kinds of artifact it holds. */
  datatype Storage = Storage(scalerFile: string -> Probe<Scaler>, classifierFile: string -> Probe<Classifier>)

  /** One item of the ordered dict self.models. */
  datatype Entry = Entry(name: string, model: Classifier)

  /** The aggregate statistics shown for the primary model. */
  datatype Stats = Stats(mainModel: string, accuracy: real, rocAuc: real, datasetSize: string, features: nat)

  /** The pair evaluate_models returns: stats and the comparison table. */
  datatype Snapshot = Snapshot(stats: Stats, comparison: seq<Row>)

  /** The foreign calls the engine makes; every one that can raise returns a Result. */
  datatype Oracles = Oracles(
    transform: (Scaler, Frame) -> Result<Frame>,               // scaler.transform
    predict: (Classifier, Frame) -> Result<Predictions>,       // model.predict
    predictProba: (Classifier, Frame) -> Result<seq<seq<real>>>, // model.predict_proba
    heldOut: (Frame, seq<Num>) -> (Frame, seq<Num>),           // test part of train_test_split(test_size=0.2, random_state=42)
    accuracy: (seq<Num>, Predictions) -> Result<real>,
    precision: (seq<Num>, Predictions) -> Result<real>,
    recall: (seq<Num>, Predictions) -> Result<real>,
    f1: (seq<Num>, Predictions) -> Result<real>,
    rocAuc: (seq<Num>, seq<real>) -> Result<real>,
    round: (real, nat) -> real)                                 // Python's round(x, digits)

  // ---------------------------------------------------------------------------------------------
  // Constants

  /** The name -> file table, in the order the loader walks it. */
  const ModelFiles: seq<(string, string)> := [
    ("Random Forest", "cardio_model.pkl"),
    ("Decision Tree", "decision_tree.pkl"),
    ("Logistic Regression", "logistic_regression.pkl"),
    ("Naive Bayes", "naive_bayes.pkl"),
    ("Linear Regression", "linear_regression.pkl")
  ]

  const ScalerFile: string := "cardio_model_scaler.pkl"

  /** The model the engine prefers as primary when it is loaded. */
  const PreferredModel: string := "Gradient Boosting"

  /** The feature order of the dict path of predict. */
  const CanonicalFeatures: seq<string> :=
    ["age", "gender", "height", "weight", "ap_hi", "ap_lo", "cholesterol", "gluc", "smoke", "alco", "active", "BMI"]

  /** Datasets larger than this are evaluated on a held-out fifth. */
  const HeldOutThreshold: nat := 10000

  const DefaultStats: Stats := Stats("Random Forest (Demo)", 73.1, 0.79, "70,000+", 11)

  const DefaultComparison: seq<Row> := [
    Row("Random Forest", 73.1, 0.74, 0.71, 0.72),
    Row("Decision Tree", 71.5, 0.72, 0.69, 0.70),
    Row("Logistic Regression", 69.8, 0.70, 0.68, 0.69),
    Row("Naive Bayes", 68.2, 0.69, 0.65, 0.67),
    Row("Linear Regression", 65.5, 0.65, 0.60, 0.62)
  ]

  const Defaults: Snapshot := Snapshot(DefaultStats, DefaultComparison)

  const GoodSuggestion: string := "Your heart health looks good! Keep up the active lifestyle."
  const ModerateSuggestion: string := "Moderate risk. Consider reducing salt intake and doing more cardio."
  const HighRiskSuggestion: string := "High risk detected. Please consult a cardiologist regularly."

  // ---------------------------------------------------------------------------------------------
  // The ordered dict of loaded models

  predicate DistinctNames(models: seq<Entry>) {
    forall i, j :: 0 <= i < j < |models| ==> models[i].name != models[j].name
  }

  /** The position of name among the keys, or -1 when it is not a key. */
  function Find(models: seq<Entry>, name: string): (k: int)
    ensures -1 <= k < |models|
    ensures k >= 0 ==> models[k].name == name && forall j :: 0 <= j < k ==> models[j].name != name
    ensures k < 0 ==> forall j :: 0 <= j < |models| ==> models[j].name != name
  {
    if models == [] then -1
    else if models[0].name == name then 0
    else var k := Find(models[1..], name); if k < 0 then -1 else k + 1
  }

  /** models[name] = m on a Python dict: an existing key keeps its place, a new key goes last. */
  function Put(models: seq<Entry>, name: string, m: Classifier): seq<Entry> {
    var k := Find(models, name);
    if k < 0 then models + [Entry(name, m)] else models[k := Entry(name, m)]
  }

  /** Putting each entry of a list, in order. */
  function PutAll(models: seq<Entry>, entries: seq<Entry>): seq<Entry> {
    if entries == [] then models
    else
      var last := entries[|entries| - 1];
      Put(PutAll(models, entries[..|entries| - 1]), last.name, last.model)
  }

  /** The entries the loader keeps from a table: those whose file is present and loads, in table order. */
  function Loaded(table: seq<(string, string)>, probe: string -> Probe<Classifier>): seq<Entry> {
    if table == [] then []
    else
      var last := table[|table| - 1];
      var p := probe(last.1);
      Loaded(table[..|table| - 1], probe) + (if p.Present? then [Entry(last.0, p.artifact)] else [])
  }

  /** "Gradient Boosting" if it is a key, otherwise the first loaded model; None when nothing loaded. */
  function Primary(models: seq<Entry>): (p: Option<Entry>)
    ensures p.Some? <==> models != []
    ensures p.Some? ==> p.value in models
  {
    var k := Find(models, PreferredModel);
    if k >= 0 then Some(models[k]) else if models == [] then None else Some(models[0])
  }

  // ---------------------------------------------------------------------------------------------
  // Feature building

  function Get(m: map<string, real>, key: string, default: real): real {
    if key in m then m[key] else default
  }

  /** Body-mass index from weight in kilograms and height in centimetres. */
  function Bmi(weight: real, height: real): real
    requires height != 0.0
  {
    weight / ((height / 100.0) * (height / 100.0))
  }

  /** The same formula on pandas cells, where a zero height or a missing value gives inf or nan. */
  function BmiCell(weight: Num, height: Num): Num {
    if weight.Finite? && height.Finite? && height.v != 0.0 then Finite(Bmi(weight.v, height.v)) else NonFinite
  }

  /** The caller's dict after predict has added "BMI", or the ZeroDivisionError a zero height raises. */
  function WithBmi(fields: map<string, real>): Result<map<string, real>> {
    var height := Get(fields, "height", 165.0);
    var weight := Get(fields, "weight", 70.0);
    if height == 0.0 then Err("float division by zero") else Ok(fields["BMI" := Bmi(weight, height)])
  }

  /** The one-row frame of the twelve canonical features, a missing key counting as 0. */
  function FeatureFrame(fields: map<string, real>): (df: Frame)
    ensures WellFormed(df)
  {
    Frame(CanonicalFeatures,
          [seq(|CanonicalFeatures|, i requires 0 <= i < |CanonicalFeatures| => Finite(Get(fields, CanonicalFeatures[i], 0.0)))])
  }

  function IndexOf(s: seq<string>, x: string): (k: nat)
    requires x in s
    ensures k < |s| && s[k] == x
    ensures forall j :: 0 <= j < k ==> s[j] != x
  {
    if s[0] == x then 0 else 1 + IndexOf(s[1..], x)
  }

  /** df[model.feature_names_in_]: the declared columns in the declared order when every one exists;
      the frame unchanged when the model declares none or when one is missing (the KeyError is swallowed). */
  function Project(df: Frame, declared: Option<seq<string>>): Frame
    requires WellFormed(df)
  {
    if declared.Some? && forall n :: n in declared.value ==> n in df.columns then
      var names := declared.value;
      Frame(names, seq(|df.rows|, r requires 0 <= r < |df.rows| =>
        seq(|names|, j requires 0 <= j < |names| => df.rows[r][IndexOf(df.columns, names[j])])))
    else df
  }

  function Scale(scaler: Option<Scaler>, df: Frame, o: Oracles): Result<Frame> {
    if scaler.Some? then o.transform(scaler.value, df) else Ok(df)
  }

  /** The heuristic used when no model loaded: (label, probability) for a random draw in [0, 1). */
  function Fallback(fields: map<string, real>, draw: real): (real, real) {
    var score := (if Get(fields, "ap_hi", 120.0) > 130.0 then 0.3 else 0.0)
               + (if Get(fields, "cholesterol", 1.0) > 1.0 then 0.2 else 0.0);
    var prob := 0.1 + score + draw * 0.1;
    (if prob > 0.5 then 1.0 else 0.0, if prob <= 0.99 then prob else 0.99)
  }

  /** predict_proba(df)[0][1]. */
  function FirstRowPositive(m: seq<seq<real>>): Result<real> {
    if |m| > 0 && |m[0]| > 1 then Ok(m[0][1]) else Err("index out of range")
  }

  /** The rest of predict once "BMI" is in the dict: the primary model's (label, probability),
      or the heuristic when no model is loaded. */
  function Infer(fields: map<string, real>, models: seq<Entry>, scaler: Option<Scaler>, o: Oracles, draw: real)
    : Result<(real, real)>
  {
    match Primary(models)
    case None => Ok(Fallback(fields, draw))
    case Some(e) =>
      var df := Project(FeatureFrame(fields), e.model.featureNames);
      var scaled :- Scale(scaler, df, o);
      var pred :- o.predict(e.model, scaled);
      if pred.values == [] then Err("index 0 is out of bounds")
      else
        var cls := pred.values[0];
        var prob :- if e.model.hasProba then (var m :- o.predictProba(e.model, scaled); FirstRowPositive(m))
                    else Ok(cls);
        Ok((cls, prob))
  }

  // ---------------------------------------------------------------------------------------------
  // Evaluation

  /** 'cardio' when the dataset has it, otherwise its last column (an IndexError when it has none). */
  function TargetColumn(columns: seq<string>): (r: Result<string>)
    ensures r.Ok? ==> r.value in columns
    ensures r.Err? <==> columns == []
    ensures "cardio" in columns ==> r == Ok("cardio")
    ensures "cardio" !in columns && columns != [] ==> r == Ok(columns[|columns| - 1])
  {
    if "cardio" in columns then Ok("cardio")
    else if columns == [] then Err("index -1 is out of bounds")
    else Ok(columns[|columns| - 1])
  }

  predicate DerivesBmi(columns: seq<string>) {
    "BMI" !in columns && "weight" in columns && "height" in columns
  }

  /** The dataset with a BMI column appended when it has weight and height but no BMI. */
  function WithBmiColumn(df: Frame): (r: Frame)
    requires WellFormed(df)
    ensures WellFormed(r)
    ensures |r.rows| == |df.rows|
    ensures r.columns == df.columns + (if DerivesBmi(df.columns) then ["BMI"] else [])
    ensures DerivesBmi(df.columns) ==> forall i :: 0 <= i < |df.rows| ==>
      r.rows[i] == df.rows[i] + [BmiCell(df.rows[i][IndexOf(df.columns, "weight")],
                                         df.rows[i][IndexOf(df.columns, "height")])]
    ensures !DerivesBmi(df.columns) ==> r == df
  {
    if DerivesBmi(df.columns) then
      var w, h := IndexOf(df.columns, "weight"), IndexOf(df.columns, "height");
      Frame(df.columns + ["BMI"], seq(|df.rows|, r requires 0 <= r < |df.rows| =>
        df.rows[r] + [BmiCell(df.rows[r][w], df.rows[r][h])]))
    else df
  }

  /** df.drop(columns=[c]). */
  function DropColumn(df: Frame, c: string): (r: Frame)
    requires WellFormed(df) && c in df.columns
    ensures |r.columns| == |df.columns| - 1
    ensures r.columns == df.columns[..IndexOf(df.columns, c)] + df.columns[IndexOf(df.columns, c) + 1..]
    ensures c !in r.columns
    ensures |r.rows| == |df.rows|
    ensures forall i :: 0 <= i < |df.rows| ==>
      r.rows[i] == df.rows[i][..IndexOf(df.columns, c)] + df.rows[i][IndexOf(df.columns, c) + 1..]
  {
    var k := IndexOf(df.columns, c);
    Frame(df.columns[..k] + df.columns[k + 1..],
          seq(|df.rows|, r requires 0 <= r < |df.rows| => df.rows[r][..k] + df.rows[r][k + 1..]))
  }

  /** df[c] as a column of values. */
  function Column(df: Frame, c: string): (y: seq<Num>)
    requires WellFormed(df) && c in df.columns
    ensures |y| == |df.rows|
    ensures forall i :: 0 <= i < |df.rows| ==> y[i] == df.rows[i][IndexOf(df.columns, c)]
  {
    var k := IndexOf(df.columns, c);
    seq(|df.rows|, r requires 0 <= r < |df.rows| => df.rows[r][k])
  }

  /** What the metrics are computed on: the scaled test features, the test labels,
      the dataset's row count and the feature count X.shape[1]. */
  datatype EvalSlice = EvalSlice(x: Frame, y: seq<Num>, size: nat, features: nat)

  /** Reading the dataset through to the scaled test slice. */
  function Slice(scaler: Option<Scaler>, csv: Result<Frame>, o: Oracles): Result<EvalSlice>
    requires csv.Ok? ==> WellFormed(csv.value)
  {
    var df :- csv;
    var target :- TargetColumn(df.columns);
    var full := WithBmiColumn(df);
    var x := DropColumn(full, target);
    var y := Column(full, target);
    var test := if |df.rows| > HeldOutThreshold then o.heldOut(x, y) else (x, y);
    var xs :- Scale(scaler, test.0, o);
    Ok(EvalSlice(xs, test.1, |df.rows|, |x.columns|))
  }

  /** predict_proba(X)[:, 1]. */
  function PositiveColumn(m: seq<seq<real>>): Result<seq<real>> {
    if forall r :: 0 <= r < |m| ==> |m[r]| > 1 then Ok(seq(|m|, r requires 0 <= r < |m| => m[r][1]))
    else Err("index 1 is out of bounds")
  }

  /** The stats of the primary model: accuracy in percent to one decimal, ROC-AUC to two. */
  function MainStats(main: Entry, s: EvalSlice, o: Oracles): Result<Stats> {
    var yPred :- o.predict(main.model, s.x);
    var yProb :- if main.model.hasProba then (var m :- o.predictProba(main.model, s.x); PositiveColumn(m))
                 else Ok(yPred.values);
    var acc :- o.accuracy(s.y, yPred);
    var auc :- o.rocAuc(s.y, yProb);
    Ok(Stats(main.name, o.round(acc * 100.0, 1), o.round(auc, 2), GroupThousands(s.size), s.features))
  }

  /** The number of distinct values np.unique would find. */
  function DistinctCount(values: seq<real>): nat {
    |set v | v in values|
  }

  /** Regression-style output (float64 with more than two distinct values) becomes 1 where it is
      strictly above 0.5 and 0 elsewhere, with an integer dtype; anything else is left as it is. */
  function Binarize(p: Predictions): Predictions {
    if p.isFloat64 && DistinctCount(p.values) > 2 then
      Predictions(false, seq(|p.values|, i requires 0 <= i < |p.values| => if p.values[i] > 0.5 then 1.0 else 0.0))
    else p
  }

  /** One comparison row: accuracy in percent to one decimal, the others to two. */
  function ComparisonRow(e: Entry, s: EvalSlice, o: Oracles): Result<Row> {
    var raw :- o.predict(e.model, s.x);
    var pred := Binarize(raw);
    var acc :- o.accuracy(s.y, pred);
    var prec :- o.precision(s.y, pred);
    var rec :- o.recall(s.y, pred);
    var f1 :- o.f1(s.y, pred);
    Ok(Row(e.name, o.round(acc * 100.0, 1), o.round(prec, 2), o.round(rec, 2), o.round(f1, 2)))
  }

  /** The rows of the comparison loop, in load order; the first failing model fails them all. */
  function ComparisonRows(models: seq<Entry>, s: EvalSlice, o: Oracles): Result<seq<Row>> {
    if models == [] then Ok([])
    else
      var rows :- ComparisonRows(models[..|models| - 1], s, o);
      var row :- ComparisonRow(models[|models| - 1], s, o);
      Ok(rows + [row])
  }

  /** The body of the try block of evaluate_models. */
  function Run(models: seq<Entry>, scaler: Option<Scaler>, csv: Result<Frame>, o: Oracles): Result<Snapshot>
    requires models != []
    requires csv.Ok? ==> WellFormed(csv.value)
  {
    var s :- Slice(scaler, csv, o);
    var stats :- MainStats(Primary(models).value, s, o);
    var rows :- ComparisonRows(models, s, o);
    Ok(Snapshot(stats, SortByAccDesc(rows)))
  }

  /** What one call of evaluate_models returns, and the cache it leaves: the defaults when the dataset
      file is missing or no model is loaded (checked before the cache), then the cached pair, then a
      fresh run whose success is cached and whose failure gives the defaults. */
  function Respond(cache: Option<Snapshot>, models: seq<Entry>, scaler: Option<Scaler>,
                   dataExists: bool, csv: Result<Frame>, o: Oracles): (Snapshot, Option<Snapshot>)
    requires csv.Ok? ==> WellFormed(csv.value)
  {
    if !dataExists || models == [] then (Defaults, cache)
    else if cache.Some? then (cache.value, cache)
    else match Run(models, scaler, csv, o)
      case Ok(s) => (s, Some(s))
      case Err(_) => (Defaults, cache)
  }

  lemma {:induction false} ComparisonRowsFailFromPrefix(models: seq<Entry>, k: nat, s: EvalSlice, o: Oracles)
    requires k <= |models|
    requires ComparisonRows(models[..k], s, o).Err?
    ensures ComparisonRows(models, s, o).Err?
    decreases |models| - k
  {
    if k < |models| {
      assert models[..k + 1][..k] == models[..k];
      ComparisonRowsFailFromPrefix(models, k + 1, s, o);
    } else {
      assert models[..k] == models;
    }
  }

  lemma PutAllStep(models: seq<Entry>, entries: seq<Entry>, e: Entry)
    ensures PutAll(models, entries + [e]) == Put(PutAll(models, entries), e.name, e.model)
  {
    assert (entries + [e])[..|entries|] == entries;
  }

  /** One turn of the loader's loop, on the dict it has built so far. */
  lemma LoadStep(start: seq<Entry>, table: seq<(string, string)>, i: nat, probe: string -> Probe<Classifier>)
    requires i < |table|
    ensures var p := probe(table[i].1);
      PutAll(start, Loaded(table[..i + 1], probe)) ==
        if p.Present? then Put(PutAll(start, Loaded(table[..i], probe)), table[i].0, p.artifact)
        else PutAll(start, Loaded(table[..i], probe))
  {
    var p := probe(table[i].1);
    assert table[..i + 1][..i] == table[..i];
    var before := Loaded(table[..i], probe);
    if p.Present? {
      PutAllStep(start, before, Entry(table[i].0, p.artifact));
    } else {
      assert Loaded(table[..i + 1], probe) == before + [];
      assert before + [] == before;
    }
  }

  // ---------------------------------------------------------------------------------------------
  // The engine object

  /** The caller's request dict, which predict extends with "BMI". */
  class InputRecord {
    var fields: map<string, real>

    constructor (fields: map<string, real>)
      ensures this.fields == fields
    {
      this.fields := fields;
    }
  }

  class HeartDiseasePredictor {
    var models: seq<Entry>
    var scaler: Option<Scaler>
    var metricsCache: Option<Snapshot>

    /** The keys of the dict of models are distinct, so a name looks up exactly one model
        (PredictorProperties.DistinctKeysLookup). */
    ghost predicate Valid()
      reads this
    {
      DistinctNames(models)
    }

    /** __init__: empty state, then _load_resources. */
    constructor (storage: Storage)
      ensures Valid()
      ensures models == PutAll([], Loaded(ModelFiles, storage.classifierFile))
      ensures scaler == (var p := storage.scalerFile(ScalerFile); if p.Present? then Some(p.artifact) else None)
      ensures metricsCache == None
    {
      models := [];
      scaler := None;
      metricsCache := None;
      new;
      LoadResources(storage);
    }

    /** _load_resources: the scaler, then each table entry in order; an absent or unloadable file is skipped. */
    method LoadResources(storage: Storage)
      requires Valid()
      modifies this`models, this`scaler
      ensures Valid()
      ensures models == PutAll(old(models), Loaded(ModelFiles, storage.classifierFile))
      ensures scaler == (var p := storage.scalerFile(ScalerFile); if p.Present? then Some(p.artifact) else old(scaler))
    {
      var sp := storage.scalerFile(ScalerFile);
      var loadedScaler := if sp.Present? then Some(sp.artifact) else scaler;
      var start, acc := models, models;
      var i := 0;
      while i < |ModelFiles|
        invariant 0 <= i <= |ModelFiles|
        invariant DistinctNames(acc)
        invariant acc == PutAll(start, Loaded(ModelFiles[..i], storage.classifierFile))
      {
        var name, file := ModelFiles[i].0, ModelFiles[i].1;
        var p := storage.classifierFile(file);
        LoadStep(start, ModelFiles, i, storage.classifierFile);
        if p.Present? {
          PutKeepsDistinct(acc, name, p.artifact);
          acc := Put(acc, name, p.artifact);
        }
        i := i + 1;
      }
      assert ModelFiles[..|ModelFiles|] == ModelFiles;
      models, scaler := acc, loadedScaler;
    }

    static lemma PutKeepsDistinct(models: seq<Entry>, name: string, m: Classifier)
      requires DistinctNames(models)
      ensures DistinctNames(Put(models, name, m))
    {
    }

    /** evaluate_models; dataExists is os.path.exists(self.data_path) and csv what pd.read_csv yields. */
    method EvaluateModels(dataExists: bool, csv: Result<Frame>, o: Oracles) returns (stats: Stats, comparison: seq<Row>)
      requires Valid()
      requires csv.Ok? ==> WellFormed(csv.value)
      modifies this`metricsCache
      ensures Valid()
      ensures Snapshot(stats, comparison) == Respond(old(metricsCache), models, scaler, dataExists, csv, o).0
      ensures metricsCache == Respond(old(metricsCache), models, scaler, dataExists, csv, o).1
    {
      if !dataExists || models == [] {
        return DefaultStats, DefaultComparison;
      }
      if metricsCache.Some? {
        return metricsCache.value.stats, metricsCache.value.comparison;
      }
      var slice := Slice(scaler, csv, o);
      if slice.Err? {
        return DefaultStats, DefaultComparison;
      }
      var s := slice.value;
      var main := Primary(models).value;
      var mainStats := MainStats(main, s, o);
      if mainStats.Err? {
        return DefaultStats, DefaultComparison;
      }
      var rows: seq<Row> := [];
      var i := 0;
      while i < |models|
        invariant 0 <= i <= |models|
        invariant ComparisonRows(models[..i], s, o) == Ok(rows)
      {
        assert models[..i + 1][..i] == models[..i];
        var row := ComparisonRow(models[i], s, o);
        if row.Err? {
          ComparisonRowsFailFromPrefix(models, i + 1, s, o);
          return DefaultStats, DefaultComparison;
        }
        rows := rows + [row.value];
        i := i + 1;
      }
      assert models[..|models|] == models;
      stats, comparison := mainStats.value, SortByAccDesc(rows);
      metricsCache := Some(Snapshot(stats, comparison));
    }

    /** predict on a dict: adds "BMI" to the caller's dict, then infers; a zero height raises before
        the dict is touched. draw stands for random.random(). */
    method Predict(input: InputRecord, o: Oracles, draw: real) returns (r: Result<(real, real)>)
      requires 0.0 <= draw < 1.0
      modifies input
      ensures WithBmi(old(input.fields)).Err? ==> r.Err? && input.fields == old(input.fields)
      ensures WithBmi(old(input.fields)).Ok? ==>
        input.fields == WithBmi(old(input.fields)).value && r == Infer(input.fields, models, scaler, o, draw)
    {
      var height := Get(input.fields, "height", 165.0);
      var weight := Get(input.fields, "weight", 70.0);
      if height == 0.0 {
        return Err("float division by zero");
      }
      input.fields := input.fields["BMI" := Bmi(weight, height)];
      var df := FeatureFrame(input.fields);
      var primary := Primary(models);
      if primary.None? {
        return Ok(Fallback(input.fields, draw));
      }
      var model := primary.value.model;
      df := Project(df, model.featureNames);
      var scaled := Scale(scaler, df, o);
      if scaled.Err? {
        return Err(scaled.error);
      }
      var pred := o.predict(model, scaled.value);
      if pred.Err? {
        return Err(pred.error);
      }
      if pred.value.values == [] {
        return Err("index 0 is out of bounds");
      }
      var cls := pred.value.values[0];
      var prob := cls;
      if model.hasProba {
        var m := o.predictProba(model, scaled.value);
        if m.Err? {
          return Err(m.error);
        }
        var p := FirstRowPositive(m.value);
        if p.Err? {
          return Err(p.error);
        }
        prob := p.value;
      }
      r := Ok((cls, prob));
    }

    /** get_lifestyle_suggestions: three probability bands. */
    static function GetLifestyleSuggestions(prob: real): string {
      if prob < 0.3 then GoodSuggestion
      else if prob < 0.7 then ModerateSuggestion
      else HighRiskSuggestion
    }
  }
}
