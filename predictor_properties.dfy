/** What the engine of utils/models.py guarantees: which models load and which one is primary, how a
    request becomes a feature vector, the heuristic fallback, the suggestion bands, the thresholding
    of regression output and the shape, order and caching of the evaluation result. */
module PredictorProperties {
  import opened Wrappers
  import opened Text
  import opened Ranking
  import opened Predictor

  // ---------------------------------------------------------------------------------------------
  // Loading and the primary model

  /** The table positions whose file is present and loads, in table order. */
  function LoadedIndices(table: seq<(string, string)>, probe: string -> Probe<Classifier>): seq<nat> {
    if table == [] then []
    else
      var n := |table| - 1;
      LoadedIndices(table[..n], probe) + (if probe(table[n].1).Present? then [n] else [])
  }

  /** The loaded models are the table entries whose file loads, each with the artifact from its own file,
      in table order; an absent or unloadable file removes its entry only. */
  lemma {:induction false} LoadedFollowsTable(table: seq<(string, string)>, probe: string -> Probe<Classifier>)
    ensures var loaded, idx := Loaded(table, probe), LoadedIndices(table, probe);
      && |idx| == |loaded|
      && (forall j :: 0 <= j < |idx| ==>
            idx[j] < |table| && probe(table[idx[j]].1).Present? && loaded[j] == Entry(table[idx[j]].0, probe(table[idx[j]].1).artifact))
      && (forall j, k :: 0 <= j < k < |idx| ==> idx[j] < idx[k])
      && (forall k :: 0 <= k < |table| ==> (k in idx <==> probe(table[k].1).Present?))
  {
    if table != [] {
      var n := |table| - 1;
      var front := table[..n];
      LoadedFollowsTable(front, probe);
      assert forall k :: 0 <= k < n ==> front[k] == table[k];
    }
  }

  predicate DistinctKeys(table: seq<(string, string)>) {
    forall i, j :: 0 <= i < j < |table| ==> table[i].0 != table[j].0
  }

  lemma LoadedNamesDistinct(table: seq<(string, string)>, probe: string -> Probe<Classifier>)
    requires DistinctKeys(table)
    ensures DistinctNames(Loaded(table, probe))
  {
    LoadedFollowsTable(table, probe);
    var loaded, idx := Loaded(table, probe), LoadedIndices(table, probe);
    forall i, j | 0 <= i < j < |loaded| ensures loaded[i].name != loaded[j].name {
      assert idx[i] < idx[j];
    }
  }

  /** Filling an empty dict with distinct keys keeps them in the order given. */
  lemma {:induction false} PutAllIntoEmpty(entries: seq<Entry>)
    requires DistinctNames(entries)
    ensures PutAll([], entries) == entries
  {
    if entries != [] {
      var n := |entries| - 1;
      var front := entries[..n];
      assert DistinctNames(front);
      PutAllIntoEmpty(front);
      assert Find(front, entries[n].name) < 0 by {
        forall j | 0 <= j < n ensures front[j].name != entries[n].name {
          assert front[j] == entries[j];
        }
      }
      assert front + [entries[n]] == entries;
    }
  }

  lemma ModelFilesKeys()
    ensures DistinctKeys(ModelFiles)
    ensures forall k :: 0 <= k < |ModelFiles| ==> ModelFiles[k].0 != PreferredModel
  {
  }

  /** A freshly built engine holds exactly the models whose files load, in table order. */
  lemma ConstructedModels(probe: string -> Probe<Classifier>)
    ensures PutAll([], Loaded(ModelFiles, probe)) == Loaded(ModelFiles, probe)
    ensures DistinctNames(Loaded(ModelFiles, probe))
  {
    ModelFilesKeys();
    LoadedNamesDistinct(ModelFiles, probe);
    PutAllIntoEmpty(Loaded(ModelFiles, probe));
  }

  /** "Gradient Boosting" wins wherever it is loaded; without it the first loaded model is primary. */
  lemma PrimaryChoice(models: seq<Entry>)
    ensures (exists k :: 0 <= k < |models| && models[k].name == PreferredModel) ==>
      Primary(models).Some? && Primary(models).value.name == PreferredModel
    ensures (forall k :: 0 <= k < |models| ==> models[k].name != PreferredModel) && models != [] ==>
      Primary(models) == Some(models[0])
  {
  }

  /** With distinct keys, as the engine keeps them, a name looks up the one entry that carries it, so
      a loaded "Gradient Boosting" is the primary model itself. */
  lemma DistinctKeysLookup(models: seq<Entry>, i: nat)
    requires DistinctNames(models) && i < |models|
    ensures Find(models, models[i].name) == i
    ensures models[i].name == PreferredModel ==> Primary(models) == Some(models[i])
  {
  }

  /** The table never names "Gradient Boosting", so the primary model is always the first one loaded. */
  lemma PrimaryIsFirstLoaded(probe: string -> Probe<Classifier>)
    requires Loaded(ModelFiles, probe) != []
    ensures Primary(Loaded(ModelFiles, probe)) == Some(Loaded(ModelFiles, probe)[0])
  {
    var loaded := Loaded(ModelFiles, probe);
    LoadedFollowsTable(ModelFiles, probe);
    ModelFilesKeys();
    var idx := LoadedIndices(ModelFiles, probe);
    forall k | 0 <= k < |loaded| ensures loaded[k].name != PreferredModel {
      assert loaded[k].name == ModelFiles[idx[k]].0;
    }
  }

  // ---------------------------------------------------------------------------------------------
  // Feature building

  /** predict adds exactly one key, "BMI" = weight / (height/100)^2 with the defaults 165 cm and 70 kg,
      and leaves every other key of the caller's dict as it was; a zero height raises instead. */
  lemma WithBmiAddsOnlyBmi(fields: map<string, real>)
    ensures WithBmi(fields).Err? <==> Get(fields, "height", 165.0) == 0.0
    ensures WithBmi(fields).Ok? ==>
      var after := WithBmi(fields).value;
      && after.Keys == fields.Keys + {"BMI"}
      && after["BMI"] == Bmi(Get(fields, "weight", 70.0), Get(fields, "height", 165.0))
      && forall k :: k in fields && k != "BMI" ==> after[k] == fields[k]
  {
  }

  /** The feature vector is the twelve canonical names in order, each key read with default 0,
      and the BMI slot always holds the derived value, whatever BMI the caller passed. */
  lemma {:induction false} FeatureVectorExact(fields: map<string, real>)
    requires WithBmi(fields).Ok?
    ensures var df := FeatureFrame(WithBmi(fields).value);
      && df.columns == CanonicalFeatures
      && |df.rows| == 1 && |df.rows[0]| == 12
      && (forall i :: 0 <= i < 11 ==> df.rows[0][i] == Finite(Get(fields, CanonicalFeatures[i], 0.0)))
      && df.rows[0][11] == Finite(Bmi(Get(fields, "weight", 70.0), Get(fields, "height", 165.0)))
  {
    var after := WithBmi(fields).value;
    assert forall i :: 0 <= i < 11 ==> CanonicalFeatures[i] != "BMI";
    assert CanonicalFeatures[11] == "BMI";
    forall i | 0 <= i < 11
      ensures Get(after, CanonicalFeatures[i], 0.0) == Get(fields, CanonicalFeatures[i], 0.0)
    {
    }
  }

  /** When every declared name is a column, the projected frame has exactly the declared columns,
      in the declared order, each holding that column's values. */
  lemma ProjectionSelects(df: Frame, names: seq<string>)
    requires WellFormed(df)
    requires forall n :: n in names ==> n in df.columns
    ensures var p := Project(df, Some(names));
      && p.columns == names && |p.rows| == |df.rows|
      && forall r, j :: 0 <= r < |df.rows| && 0 <= j < |names| ==>
           |p.rows[r]| == |names| && p.rows[r][j] == df.rows[r][IndexOf(df.columns, names[j])]
  {
  }

  /** A declared name that is not a column leaves the frame untouched and raises nothing. */
  lemma ProjectionMissingName(df: Frame, names: seq<string>, missing: string)
    requires WellFormed(df)
    requires missing in names && missing !in df.columns
    ensures Project(df, Some(names)) == df
  {
  }

  lemma {:induction false} IndexOfAt(s: seq<string>, x: string, k: nat)
    requires k < |s| && s[k] == x
    requires forall j :: 0 <= j < k ==> s[j] != x
    ensures IndexOf(s, x) == k
  {
    if k > 0 {
      IndexOfAt(s[1..], x, k - 1);
    }
  }

  lemma ApHiPosition()
    ensures "ap_hi" in CanonicalFeatures && IndexOf(CanonicalFeatures, "ap_hi") == 4
  {
    assert CanonicalFeatures[4] == "ap_hi";
    assert forall j :: 0 <= j < 4 ==> CanonicalFeatures[j] != "ap_hi";
    IndexOfAt(CanonicalFeatures, "ap_hi", 4);
  }

  lemma BmiPosition()
    ensures "BMI" in CanonicalFeatures && IndexOf(CanonicalFeatures, "BMI") == 11
  {
    assert CanonicalFeatures[11] == "BMI";
    assert forall j :: 0 <= j < 11 ==> CanonicalFeatures[j] != "BMI";
    IndexOfAt(CanonicalFeatures, "BMI", 11);
  }

  lemma CanonicalPositions()
    ensures "age" in CanonicalFeatures && IndexOf(CanonicalFeatures, "age") == 0
    ensures "ap_hi" in CanonicalFeatures && IndexOf(CanonicalFeatures, "ap_hi") == 4
    ensures "BMI" in CanonicalFeatures && IndexOf(CanonicalFeatures, "BMI") == 11
  {
    assert CanonicalFeatures[0] == "age";
    ApHiPosition();
    BmiPosition();
  }

  /** Projecting a one-row frame on three present names picks their three slots. */
  lemma ProjectThree(df: Frame, x: string, y: string, z: string)
    requires WellFormed(df) && |df.rows| == 1
    requires x in df.columns && y in df.columns && z in df.columns
    ensures Project(df, Some([x, y, z])) ==
      Frame([x, y, z], [[df.rows[0][IndexOf(df.columns, x)], df.rows[0][IndexOf(df.columns, y)],
                         df.rows[0][IndexOf(df.columns, z)]]])
  {
    var names := [x, y, z];
    assert forall n :: n in names ==> n in df.columns;
    ProjectionSelects(df, names);
    var p := Project(df, Some(names));
    assert p.rows[0] == [p.rows[0][0], p.rows[0][1], p.rows[0][2]];
  }

  /** On the canonical one-row frame, declaring [age, BMI, ap_hi] picks slots 0, 11 and 4. */
  lemma ExampleOnCanonical(df: Frame)
    requires WellFormed(df) && df.columns == CanonicalFeatures && |df.rows| == 1
    ensures Project(df, Some(["age", "BMI", "ap_hi"])) ==
      Frame(["age", "BMI", "ap_hi"], [[df.rows[0][0], df.rows[0][11], df.rows[0][4]]])
  {
    CanonicalPositions();
    ProjectThree(df, "age", "BMI", "ap_hi");
  }

  /** Example: a model declaring [age, BMI, ap_hi] receives exactly those three values. */
  lemma ProjectionExample(fields: map<string, real>, models: seq<Entry>, scaler: Option<Scaler>, o: Oracles, draw: real)
    requires WithBmi(fields).Ok?
    ensures var after := WithBmi(fields).value;
      Project(FeatureFrame(after), Some(["age", "BMI", "ap_hi"])) ==
        Frame(["age", "BMI", "ap_hi"],
              [[Finite(Get(fields, "age", 0.0)),
                Finite(Bmi(Get(fields, "weight", 70.0), Get(fields, "height", 165.0))),
                Finite(Get(fields, "ap_hi", 0.0))]])
    ensures Primary(models).Some? && Primary(models).value.model.featureNames == Some(["age", "BMI", "ap_hi"]) ==>
      var e, after := Primary(models).value, WithBmi(fields).value;
      var input := Scale(scaler, Project(FeatureFrame(after), Some(["age", "BMI", "ap_hi"])), o);
      var r := Infer(after, models, scaler, o, draw);
      r.Ok? ==> (input.Ok? && o.predict(e.model, input.value).Ok? && o.predict(e.model, input.value).value.values != []
                 && r.value.0 == o.predict(e.model, input.value).value.values[0])
  {
    var df := FeatureFrame(WithBmi(fields).value);
    FeatureVectorExact(fields);
    ExampleOnCanonical(df);
    assert CanonicalFeatures[0] == "age" && CanonicalFeatures[4] == "ap_hi";
    if Primary(models).Some? {
      InferModelInput(WithBmi(fields).value, models, scaler, o, draw);
    }
  }

  /** With a model loaded, predict hands the primary model the canonical vector projected onto the
      model's declared columns and then passed through the scaler when one is loaded: the label is the
      model's first prediction on that frame and, when the model has predict_proba, the probability is
      the positive column of its first row; a failing transform or predict, or an empty prediction,
      makes predict fail. */
  lemma InferModelInput(fields: map<string, real>, models: seq<Entry>, scaler: Option<Scaler>, o: Oracles, draw: real)
    requires Primary(models).Some?
    ensures var e := Primary(models).value;
      var input := Scale(scaler, Project(FeatureFrame(fields), e.model.featureNames), o);
      var r := Infer(fields, models, scaler, o, draw);
      && (input.Err? ==> r.Err?)
      && (input.Ok? && o.predict(e.model, input.value).Err? ==> r.Err?)
      && (input.Ok? && o.predict(e.model, input.value).Ok? && o.predict(e.model, input.value).value.values == [] ==> r.Err?)
      && (r.Ok? ==> (input.Ok? && o.predict(e.model, input.value).Ok? && o.predict(e.model, input.value).value.values != []
                     && r.value.0 == o.predict(e.model, input.value).value.values[0]))
      && (r.Ok? && e.model.hasProba ==> (input.Ok? && o.predictProba(e.model, input.value).Ok?
                                         && FirstRowPositive(o.predictProba(e.model, input.value).value) == Ok(r.value.1)))
  {
  }

  /** With a model loaded, the outcome of predict depends on the request only through the projected
      vector: two requests that agree on it get the same answer, whatever the random draws. */
  lemma InferSeesOnlyProjection(f1: map<string, real>, f2: map<string, real>, models: seq<Entry>,
                                scaler: Option<Scaler>, o: Oracles, draw1: real, draw2: real)
    requires Primary(models).Some?
    requires Project(FeatureFrame(f1), Primary(models).value.model.featureNames) ==
             Project(FeatureFrame(f2), Primary(models).value.model.featureNames)
    ensures Infer(f1, models, scaler, o, draw1) == Infer(f2, models, scaler, o, draw2)
  {
  }

  /** A primary model without predict_proba reports its predicted label as the probability. */
  lemma InferLabelWithoutProba(fields: map<string, real>, models: seq<Entry>, scaler: Option<Scaler>, o: Oracles, draw: real)
    requires Primary(models).Some? && !Primary(models).value.model.hasProba
    requires Infer(fields, models, scaler, o, draw).Ok?
    ensures Infer(fields, models, scaler, o, draw).value.1 == Infer(fields, models, scaler, o, draw).value.0
  {
  }

  // ---------------------------------------------------------------------------------------------
  // The heuristic and the suggestion bands

  /** With no model loaded: the probability lies in [0.1, 0.7), so the 0.99 cap never bites, and the
      label is 1 exactly when blood pressure is above 130 AND cholesterol above 1. */
  lemma FallbackBounds(fields: map<string, real>, draw: real)
    requires 0.0 <= draw < 1.0
    ensures var (cls, prob) := Fallback(fields, draw);
      var hiBp, hiChol := Get(fields, "ap_hi", 120.0) > 130.0, Get(fields, "cholesterol", 1.0) > 1.0;
      && 0.1 <= prob < 0.7
      && prob == 0.1 + (if hiBp then 0.3 else 0.0) + (if hiChol then 0.2 else 0.0) + draw * 0.1
      && (cls == 1.0 <==> hiBp && hiChol)
      && (cls == 0.0 || cls == 1.0)
  {
  }

  /** Without models predict never consults an oracle and stays within [0.1, 0.99]. */
  lemma NoModelsUsesFallback(fields: map<string, real>, scaler: Option<Scaler>, o: Oracles, draw: real)
    requires 0.0 <= draw < 1.0
    ensures Infer(fields, [], scaler, o, draw) == Ok(Fallback(fields, draw))
    ensures 0.1 <= Fallback(fields, draw).1 <= 0.99
  {
    FallbackBounds(fields, draw);
  }

  function Band(prob: real): nat {
    var s := HeartDiseasePredictor.GetLifestyleSuggestions(prob);
    if s == GoodSuggestion then 0 else if s == ModerateSuggestion then 1 else 2
  }

  /** The three bands partition the reals at 0.3 and 0.7. */
  lemma SuggestionBands(prob: real)
    ensures HeartDiseasePredictor.GetLifestyleSuggestions(prob) == GoodSuggestion <==> prob < 0.3
    ensures HeartDiseasePredictor.GetLifestyleSuggestions(prob) == ModerateSuggestion <==> 0.3 <= prob < 0.7
    ensures HeartDiseasePredictor.GetLifestyleSuggestions(prob) == HighRiskSuggestion <==> 0.7 <= prob
  {
  }

  /** A higher probability never gets a milder suggestion. */
  lemma SuggestionMonotone(p: real, q: real)
    requires p <= q
    ensures Band(p) <= Band(q)
  {
    SuggestionBands(p);
    SuggestionBands(q);
  }

  // ---------------------------------------------------------------------------------------------
  // Thresholding regression output

  /** Float64 output with more than two distinct values becomes integer 0/1, 1 exactly above 0.5. */
  lemma BinarizeThresholds(p: Predictions)
    requires p.isFloat64 && DistinctCount(p.values) > 2
    ensures var b := Binarize(p);
      && !b.isFloat64 && |b.values| == |p.values|
      && forall i :: 0 <= i < |p.values| ==>
           (b.values[i] == 0.0 || b.values[i] == 1.0) && (b.values[i] == 1.0 <==> p.values[i] > 0.5)
  {
  }

  /** Integer output, and float output with at most two distinct values, are left unchanged. */
  lemma BinarizeKeepsClassifierOutput(p: Predictions)
    requires !p.isFloat64 || DistinctCount(p.values) <= 2
    ensures Binarize(p) == p
  {
  }

  /** Thresholded output is left alone by a second thresholding. */
  lemma BinarizeIdempotent(p: Predictions)
    ensures Binarize(Binarize(p)) == Binarize(p)
  {
  }

  /** Example: [0.2, 0.81, 0.49, 0.95] as float64 becomes [0, 1, 0, 1]. */
  lemma RegressionExample()
    ensures Binarize(Predictions(true, [0.2, 0.81, 0.49, 0.95])) == Predictions(false, [0.0, 1.0, 0.0, 1.0])
  {
    var vs := [0.2, 0.81, 0.49, 0.95];
    assert {0.2, 0.81, 0.49} <= set v | v in vs;
    assert |{0.2, 0.81, 0.49}| == 3;
    SubsetCard({0.2, 0.81, 0.49}, set v | v in vs);
  }

  lemma SubsetCard(a: set<real>, b: set<real>)
    requires a <= b
    ensures |a| <= |b|
  {
    assert b == a + (b - a);
  }

  // ---------------------------------------------------------------------------------------------
  // Evaluation

  /** The default comparison has one row per table entry, in table order, and is already sorted,
      so it is what sorting it would give. */
  lemma DefaultComparisonOrdered()
    ensures |DefaultComparison| == |ModelFiles|
    ensures forall i :: 0 <= i < |ModelFiles| ==> DefaultComparison[i].name == ModelFiles[i].0
    ensures SortedByAccDesc(DefaultComparison)
    ensures SortByAccDesc(DefaultComparison) == DefaultComparison
  {
    var d := DefaultComparison;
    assert d[0].acc >= d[1].acc && d[1].acc >= d[2].acc && d[2].acc >= d[3].acc && d[3].acc >= d[4].acc;
    AdjacentSorted(d);
    SortFixesSorted(d);
  }

  /** Rows whose neighbours are in non-increasing accuracy are sorted. */
  lemma {:induction false} AdjacentSorted(s: seq<Row>)
    requires forall i :: 0 <= i < |s| - 1 ==> s[i].acc >= s[i + 1].acc
    ensures SortedByAccDesc(s)
  {
    if |s| > 1 {
      AdjacentSorted(s[1..]);
      forall j | 1 <= j < |s|
        ensures s[1].acc >= s[j].acc && s[j] == s[1..][j - 1]
      {
        if j > 1 {
          assert s[1..][0].acc >= s[1..][j - 1].acc;
        }
      }
    }
  }

  /** The comparison loop makes one row per model, named after it, in load order. */
  lemma {:induction false} ComparisonRowsFollowModels(models: seq<Entry>, s: EvalSlice, o: Oracles)
    requires ComparisonRows(models, s, o).Ok?
    ensures |ComparisonRows(models, s, o).value| == |models|
    ensures forall i :: 0 <= i < |models| ==> ComparisonRows(models, s, o).value[i].name == models[i].name
  {
    if models != [] {
      var n := |models| - 1;
      ComparisonRowsFollowModels(models[..n], s, o);
      var rows := ComparisonRows(models[..n], s, o).value;
      var row := ComparisonRow(models[n], s, o).value;
      assert ComparisonRows(models, s, o).value == rows + [row];
      assert (rows + [row])[n] == row;
    }
  }

  /** Unfolds a successful run into its slice, the primary model's stats and the comparison rows. */
  lemma RunParts(models: seq<Entry>, scaler: Option<Scaler>, csv: Result<Frame>, o: Oracles)
    requires models != []
    requires csv.Ok? ==> WellFormed(csv.value)
    requires Run(models, scaler, csv, o).Ok?
    ensures Slice(scaler, csv, o).Ok?
    ensures MainStats(Primary(models).value, Slice(scaler, csv, o).value, o).Ok?
    ensures ComparisonRows(models, Slice(scaler, csv, o).value, o).Ok?
    ensures Run(models, scaler, csv, o).value ==
      Snapshot(MainStats(Primary(models).value, Slice(scaler, csv, o).value, o).value,
               SortByAccDesc(ComparisonRows(models, Slice(scaler, csv, o).value, o).value))
  {
  }

  /** A successful run has one row per loaded model, sorted by accuracy descending, and rows of equal
      accuracy keep their load order. */
  lemma RunComparison(models: seq<Entry>, scaler: Option<Scaler>, csv: Result<Frame>, o: Oracles)
    requires models != []
    requires csv.Ok? ==> WellFormed(csv.value)
    requires Run(models, scaler, csv, o).Ok?
    ensures Slice(scaler, csv, o).Ok?
    ensures ComparisonRows(models, Slice(scaler, csv, o).value, o).Ok?
    ensures var comparison := Run(models, scaler, csv, o).value.comparison;
      var rows := ComparisonRows(models, Slice(scaler, csv, o).value, o).value;
      && |rows| == |models|
      && (forall i :: 0 <= i < |models| ==> rows[i].name == models[i].name)
      && comparison == SortByAccDesc(rows)
      && |comparison| == |models|
      && SortedByAccDesc(comparison)
      && multiset(Names(comparison)) == multiset(Names(rows))
      && (forall v :: WithAcc(comparison, v) == WithAcc(rows, v))
  {
    RunParts(models, scaler, csv, o);
    var s := Slice(scaler, csv, o).value;
    var rows := ComparisonRows(models, s, o).value;
    ComparisonRowsFollowModels(models, s, o);
    SortIsSorted(rows);
    SortKeepsNames(rows);
    forall v ensures WithAcc(SortByAccDesc(rows), v) == WithAcc(rows, v) {
      SortIsStable(rows, v);
    }
  }

  /** The primary model's stats: the accuracy of its predicted labels in percent to one decimal, and the
      ROC-AUC, to two decimals, of the positive-class column of predict_proba when the model has it and
      of the predicted labels themselves when it does not. */
  lemma MainStatsScores(main: Entry, s: EvalSlice, o: Oracles)
    requires MainStats(main, s, o).Ok?
    ensures var stats, pred := MainStats(main, s, o).value, o.predict(main.model, s.x);
      && pred.Ok? && o.accuracy(s.y, pred.value).Ok?
      && stats.mainModel == main.name
      && stats.accuracy == o.round(o.accuracy(s.y, pred.value).value * 100.0, 1)
      && (!main.model.hasProba ==> (o.rocAuc(s.y, pred.value.values).Ok?
                                    && stats.rocAuc == o.round(o.rocAuc(s.y, pred.value.values).value, 2)))
      && (main.model.hasProba ==>
            var proba := o.predictProba(main.model, s.x);
            (proba.Ok? && PositiveColumn(proba.value).Ok?
             && o.rocAuc(s.y, PositiveColumn(proba.value).value).Ok?
             && stats.rocAuc == o.round(o.rocAuc(s.y, PositiveColumn(proba.value).value).value, 2)))
      && stats.datasetSize == GroupThousands(s.size)
      && stats.features == s.features
  {
  }

  /** The stats of a successful run name the primary model, give the dataset's row count with thousands
      separators and count the feature columns: all but the target, plus a derived BMI. The accuracy is
      that of the primary's predictions on the slice, and a primary without predict_proba has its
      ROC-AUC computed on those predicted labels. */
  lemma RunStats(models: seq<Entry>, scaler: Option<Scaler>, csv: Result<Frame>, o: Oracles)
    requires models != []
    requires csv.Ok? ==> WellFormed(csv.value)
    requires Run(models, scaler, csv, o).Ok?
    ensures csv.Ok?
    ensures var stats := Run(models, scaler, csv, o).value.stats;
      && stats.mainModel == Primary(models).value.name
      && stats.datasetSize == GroupThousands(|csv.value.rows|)
      && stats.features == |csv.value.columns| - 1 + (if DerivesBmi(csv.value.columns) then 1 else 0)
    ensures Slice(scaler, csv, o).Ok?
    ensures var stats, s, main := Run(models, scaler, csv, o).value.stats, Slice(scaler, csv, o).value, Primary(models).value;
      var pred := o.predict(main.model, s.x);
      && MainStats(main, s, o) == Ok(stats)
      && pred.Ok? && o.accuracy(s.y, pred.value).Ok?
      && stats.accuracy == o.round(o.accuracy(s.y, pred.value).value * 100.0, 1)
      && (!main.model.hasProba ==> (o.rocAuc(s.y, pred.value.values).Ok?
                                    && stats.rocAuc == o.round(o.rocAuc(s.y, pred.value.values).value, 2)))
  {
    RunParts(models, scaler, csv, o);
    var s := Slice(scaler, csv, o).value;
    MainStatsScores(Primary(models).value, s, o);
    var df := csv.value;
    var target := TargetColumn(df.columns).value;
    var full := WithBmiColumn(df);
    assert s.size == |df.rows|;
    assert s.features == |DropColumn(full, target).columns|;
    assert |full.columns| == |df.columns| + (if DerivesBmi(df.columns) then 1 else 0);
  }

  /** The BMI column of the dataset follows the formula predict applies to a record: on a row with a
      weight w and a non-zero height h it holds the BMI predict adds to {weight: w, height: h}, and a
      zero height gives a non-finite cell where predict raises. */
  lemma DatasetBmiAgreesWithPredict(df: Frame, i: nat)
    requires WellFormed(df) && DerivesBmi(df.columns) && i < |df.rows|
    ensures var w, h := df.rows[i][IndexOf(df.columns, "weight")], df.rows[i][IndexOf(df.columns, "height")];
      var cell := WithBmiColumn(df).rows[i][|df.columns|];
      && (w.Finite? && h.Finite? && h.v != 0.0 ==>
            var record := WithBmi(map["weight" := w.v, "height" := h.v]);
            record.Ok? && cell == Finite(record.value["BMI"]))
      && (w.Finite? && h.Finite? && h.v == 0.0 ==>
            cell == NonFinite && WithBmi(map["weight" := w.v, "height" := h.v]).Err?)
  {
    var w, h := df.rows[i][IndexOf(df.columns, "weight")], df.rows[i][IndexOf(df.columns, "height")];
    var row := WithBmiColumn(df).rows[i];
    assert row == df.rows[i] + [BmiCell(w, h)];
    assert row[|df.columns|] == BmiCell(w, h);
  }

  /** Unfolds a successful slice into the split it takes and the scaler's output on that split. */
  lemma SliceParts(scaler: Option<Scaler>, df: Frame, o: Oracles, target: string, x: Frame, y: seq<Num>)
    requires WellFormed(df) && Slice(scaler, Ok(df), o).Ok?
    requires TargetColumn(df.columns) == Ok(target)
    requires x == DropColumn(WithBmiColumn(df), target) && y == Column(WithBmiColumn(df), target)
    ensures var test := if |df.rows| > HeldOutThreshold then o.heldOut(x, y) else (x, y);
      && Scale(scaler, test.0, o) == Ok(Slice(scaler, Ok(df), o).value.x)
      && Slice(scaler, Ok(df), o).value.y == test.1
  {
  }

  /** Datasets of at most 10,000 rows are measured on every row; larger ones on the held-out split.
      The features the models score are those rows' features after the scaler. */
  lemma SliceRows(scaler: Option<Scaler>, csv: Result<Frame>, o: Oracles)
    requires csv.Ok? && WellFormed(csv.value)
    requires Slice(scaler, csv, o).Ok?
    ensures var df := csv.value;
      var full := WithBmiColumn(df);
      var target := TargetColumn(df.columns).value;
      var x, y := DropColumn(full, target), Column(full, target);
      Slice(scaler, csv, o).value.y == if |df.rows| > HeldOutThreshold then o.heldOut(x, y).1 else y
    ensures var df := csv.value;
      var full := WithBmiColumn(df);
      var target := TargetColumn(df.columns).value;
      var x, y := DropColumn(full, target), Column(full, target);
      Scale(scaler, if |df.rows| > HeldOutThreshold then o.heldOut(x, y).0 else x, o) == Ok(Slice(scaler, csv, o).value.x)
    ensures |csv.value.rows| <= HeldOutThreshold ==> |Slice(scaler, csv, o).value.y| == |csv.value.rows|
  {
    var df := csv.value;
    var target := TargetColumn(df.columns).value;
    var full := WithBmiColumn(df);
    var x, y := DropColumn(full, target), Column(full, target);
    SliceParts(scaler, df, o, target, x, y);
  }

  /** Missing dataset or no models: the defaults, whatever the cache holds, and the cache is kept. */
  lemma FallbackBeforeCache(cache: Option<Snapshot>, models: seq<Entry>, scaler: Option<Scaler>,
                            dataExists: bool, csv: Result<Frame>, o: Oracles)
    requires csv.Ok? ==> WellFormed(csv.value)
    requires !dataExists || models == []
    ensures Respond(cache, models, scaler, dataExists, csv, o) == (Defaults, cache)
  {
  }

  /** An exception anywhere in a fresh run gives the defaults and leaves the cache empty. */
  lemma FailedRunGivesDefaults(models: seq<Entry>, scaler: Option<Scaler>, csv: Result<Frame>, o: Oracles)
    requires csv.Ok? ==> WellFormed(csv.value)
    requires models != [] && Run(models, scaler, csv, o).Err?
    ensures Respond(None, models, scaler, true, csv, o) == (Defaults, None)
  {
  }

  /** The cache is written at most once, only by a successful run, and with the pair that run returned. */
  lemma SingleCacheWrite(cache: Option<Snapshot>, models: seq<Entry>, scaler: Option<Scaler>,
                         dataExists: bool, csv: Result<Frame>, o: Oracles)
    requires csv.Ok? ==> WellFormed(csv.value)
    ensures var (answer, after) := Respond(cache, models, scaler, dataExists, csv, o);
      && (cache.Some? ==> after == cache)
      && (after != cache ==> cache.None? && models != [] && after == Some(answer)
                              && Run(models, scaler, csv, o) == Ok(answer))
      && (after == cache ==> answer == Defaults || (cache.Some? && answer == cache.value))
  {
  }

  /** Once something is cached, every call whose prerequisites hold returns it, whatever the dataset
      and the oracles now say. */
  lemma CachedAnswerSticks(snap: Snapshot, models: seq<Entry>, scaler: Option<Scaler>,
                           csv: Result<Frame>, o: Oracles)
    requires csv.Ok? ==> WellFormed(csv.value)
    requires models != []
    ensures Respond(Some(snap), models, scaler, true, csv, o) == (snap, Some(snap))
  {
  }

  /** Two consecutive calls with nothing changed give the same answer, and the second leaves the cache alone. */
  lemma EvaluateIdempotent(cache: Option<Snapshot>, models: seq<Entry>, scaler: Option<Scaler>,
                           dataExists: bool, csv: Result<Frame>, o: Oracles)
    requires csv.Ok? ==> WellFormed(csv.value)
    ensures var (first, after) := Respond(cache, models, scaler, dataExists, csv, o);
      Respond(after, models, scaler, dataExists, csv, o) == (first, after)
  {
  }

  /** What callers of the engine can rely on: two calls in a row return the same pair. */
  method EvaluateTwice(engine: HeartDiseasePredictor, dataExists: bool, csv: Result<Frame>, o: Oracles)
    returns (first: Snapshot, second: Snapshot)
    requires engine.Valid()
    requires csv.Ok? ==> WellFormed(csv.value)
    modifies engine
    ensures first == second
  {
    var s1, c1 := engine.EvaluateModels(dataExists, csv, o);
    var s2, c2 := engine.EvaluateModels(dataExists, csv, o);
    first, second := Snapshot(s1, c1), Snapshot(s2, c2);
  }
}
