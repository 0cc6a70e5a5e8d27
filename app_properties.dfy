/** Properties of the app.py decision rules: what the triage decides, what the clinical step records
    and labels, how the chart orders and scales the stored results, and how tests are classified. */
module AppProperties {
  import opened Wrappers
  import opened Predictor
  import opened PredictorProperties
  import opened HeartGuardApp

  // ---------------------------------------------------------------------------------------------
  // predictor_stage1

  /** Each lifestyle flag is 1 exactly when its checkbox was submitted with a non-empty value, and
      the form values are kept as submitted, None for a missing field. */
  lemma LifestyleFlags(form: Form)
    ensures var s := PredictorStage1(form).0;
      && (s.smoke == Some(1) <==> "smoke" in form && form["smoke"].text != "")
      && (s.alco == Some(1) <==> "alco" in form && form["alco"].text != "")
      && (s.active == Some(1) <==> "active" in form && form["active"].text != "")
      && s.smoke.Some? && s.smoke.value in {0, 1}
      && s.alco.Some? && s.alco.value in {0, 1}
      && s.active.Some? && s.active.value in {0, 1}
      && (s.age == NoneValue <==> "age" !in form)
      && ("age" in form ==> s.age == Stored(form["age"]))
      && (s.weight == NoneValue <==> "weight" !in form)
      && ("weight" in form ==> s.weight == Stored(form["weight"]))
      && (s.height == NoneValue <==> "height" !in form)
      && ("height" in form ==> s.height == Stored(form["height"]))
  {
  }

  /** The triage: an unconvertible age is an unhandled error; otherwise the record goes on to the
      clinical step exactly when age > 45 (30 when not given), or it smokes, drinks or is inactive. */
  lemma TriageDecision(form: Form)
    ensures PredictorStage1(form).1.Crashed? <==> "age" in form && form["age"].asFloat.None?
    ensures LifestyleAge(form).Ok? ==>
      (PredictorStage1(form).1 == ToClinical <==>
        LifestyleAge(form).value > 45.0 || Flag(form, "smoke") == 1 || Flag(form, "active") == 0 || Flag(form, "alco") == 1)
    ensures "age" !in form ==> LifestyleAge(form) == Ok(30.0)
  {
  }

  /** A record that is not risky gets exactly the fixed Low result, and what is logged with it says
      so: four keys, an age of at most 45, no smoking, no alcohol, active. */
  lemma ShortCircuitResult(form: Form)
    requires PredictorStage1(form).1.ShortCircuit?
    ensures var out := PredictorStage1(form).1;
      && out.result == Assessment("Low", 10.0, HealthyLifestyle)
      && out.logged.Keys == {"age", "smoke", "alco", "active"}
      && out.logged["age"] <= 45.0 && out.logged["age"] == LifestyleAge(form).value
      && out.logged["smoke"] == 0.0 && out.logged["alco"] == 0.0 && out.logged["active"] == 1.0
      && TestType(out.logged.Keys) == Lifestyle
  {
  }

  // ---------------------------------------------------------------------------------------------
  // predictor_stage2

  /** With nothing in the session and nothing submitted, the record is the source's defaults (app.py:185-196):
      50 years as days, gender 1, 165 cm, 70 kg, 120/80 mmHg, cholesterol and glucose 1,
      non-smoker, no alcohol, active. */
  lemma ClinicalDefaults()
    ensures ClinicalRecord(FreshSession, map[]) ==
      Ok(map["age" := 18250.0, "gender" := 1.0, "height" := 165.0, "weight" := 70.0,
             "ap_hi" := 120.0, "ap_lo" := 80.0, "cholesterol" := 1.0, "gluc" := 1.0,
             "smoke" := 0.0, "alco" := 0.0, "active" := 1.0])
  {
  }

  /** A successful record has the eleven keys, its age in days is 365 times the session's years, the
      measures and flags come from the session, and gender, blood pressure, cholesterol and glucose
      from the form, each with its default. */
  lemma ClinicalRecordShape(session: Session, form: Form)
    requires ClinicalRecord(session, form).Ok?
    ensures var r := ClinicalRecord(session, form).value;
      && r.Keys == {"age", "gender", "height", "weight", "ap_hi", "ap_lo", "cholesterol", "gluc", "smoke", "alco", "active"}
      && r["age"] == 365.0 * SessionFloat(session.age, 50.0).value
      && r["height"] == SessionFloat(session.height, 165.0).value
      && r["weight"] == SessionFloat(session.weight, 70.0).value
      && r["gender"] == FormInt(form, "gender", 1).value as real
      && r["ap_hi"] == FormFloat(form, "ap_hi", 120.0).value
      && r["ap_lo"] == FormFloat(form, "ap_lo", 80.0).value
      && r["cholesterol"] == FormInt(form, "cholesterol", 1).value as real
      && r["gluc"] == FormInt(form, "gluc", 1).value as real
      && r["smoke"] == (if session.smoke.Some? then session.smoke.value else 0) as real
      && r["alco"] == (if session.alco.Some? then session.alco.value else 0) as real
      && r["active"] == (if session.active.Some? then session.active.value else 1) as real
  {
    RecordIsMap(session, form);
    RecordMapEntries(365.0 * SessionFloat(session.age, 50.0).value, FormInt(form, "gender", 1).value as real,
                     SessionFloat(session.height, 165.0).value, SessionFloat(session.weight, 70.0).value,
                     FormFloat(form, "ap_hi", 120.0).value, FormFloat(form, "ap_lo", 80.0).value,
                     FormInt(form, "cholesterol", 1).value as real, FormInt(form, "gluc", 1).value as real,
                     SessionFlag(session.smoke, 0) as real, SessionFlag(session.alco, 0) as real,
                     SessionFlag(session.active, 1) as real);
  }

  /** A successful record is the dict of the eight parsed values and the three flags. */
  lemma RecordIsMap(session: Session, form: Form)
    requires ClinicalRecord(session, form).Ok?
    ensures SessionFloat(session.age, 50.0).Ok? && SessionFloat(session.height, 165.0).Ok?
    ensures SessionFloat(session.weight, 70.0).Ok? && FormInt(form, "gender", 1).Ok?
    ensures FormFloat(form, "ap_hi", 120.0).Ok? && FormFloat(form, "ap_lo", 80.0).Ok?
    ensures FormInt(form, "cholesterol", 1).Ok? && FormInt(form, "gluc", 1).Ok?
    ensures ClinicalRecord(session, form).value ==
      RecordMap(365.0 * SessionFloat(session.age, 50.0).value, FormInt(form, "gender", 1).value as real,
                SessionFloat(session.height, 165.0).value, SessionFloat(session.weight, 70.0).value,
                FormFloat(form, "ap_hi", 120.0).value, FormFloat(form, "ap_lo", 80.0).value,
                FormInt(form, "cholesterol", 1).value as real, FormInt(form, "gluc", 1).value as real,
                SessionFlag(session.smoke, 0) as real, SessionFlag(session.alco, 0) as real,
                SessionFlag(session.active, 1) as real)
  {
    var years, height, weight := SessionFloat(session.age, 50.0), SessionFloat(session.height, 165.0),
                                 SessionFloat(session.weight, 70.0);
    var gender, cholesterol, gluc := FormInt(form, "gender", 1), FormInt(form, "cholesterol", 1),
                                     FormInt(form, "gluc", 1);
    var apHi, apLo := FormFloat(form, "ap_hi", 120.0), FormFloat(form, "ap_lo", 80.0);
    assert years.Ok? && gender.Ok? && height.Ok? && weight.Ok? && apHi.Ok? && apLo.Ok? && cholesterol.Ok? && gluc.Ok?;
  }

  /** A stage-one form without age, weight or height stores None for it, and float(None) then makes
      every clinical submission fall back to the form: the assessment is unreachable. */
  lemma MissingMeasureBlocksClinical(form1: Form, form2: Form, email: Option<string>, models: seq<Entry>,
                                     scaler: Option<Scaler>, o: Oracles, draw: real)
    requires "age" !in form1 || "weight" !in form1 || "height" !in form1
    ensures ClinicalStep(PredictorStage1(form1).0, form2, email, models, scaler, o, draw) == FormAgain
  {
    var s := LifestyleSession(form1);
    assert PredictorStage1(form1).0 == s;
    NoneBlocksRecord(s, form2);
  }

  /** float(None) on any of the three session measures makes the record raise. */
  lemma NoneBlocksRecord(s: Session, form: Form)
    requires s.age == NoneValue || s.weight == NoneValue || s.height == NoneValue
    ensures ClinicalRecord(s, form).Err?
  {
  }

  /** Every assessment logs the record with the derived BMI added, which profile types as Clinical;
      the alert goes out exactly when the session has a non-empty e-mail address. */
  lemma AssessedRecordIsClinical(session: Session, form: Form, email: Option<string>, models: seq<Entry>,
                                 scaler: Option<Scaler>, o: Oracles, draw: real)
    requires ClinicalStep(session, form, email, models, scaler, o, draw).Assessed?
    ensures var out := ClinicalStep(session, form, email, models, scaler, o, draw);
      && ClinicalRecord(session, form).Ok?
      && out.logged == WithBmi(ClinicalRecord(session, form).value).value
      && "BMI" in out.logged && "ap_hi" in out.logged
      && TestType(out.logged.Keys) == Clinical
      && (out.alert <==> email.Some? && email.value != "")
  {
    var data := ClinicalRecord(session, form).value;
    WithBmiAddsOnlyBmi(data);
    var logged := WithBmi(data).value;
    RecordIsMap(session, form);
    assert "ap_hi" in data;
  }

  /** The result of an assessment: the risk is the label of the engine's class and probability, the
      stored prob is the probability as a percentage rounded to one decimal, and the advice is the
      band of the probability. */
  lemma AssessedScore(session: Session, form: Form, email: Option<string>, models: seq<Entry>,
                      scaler: Option<Scaler>, o: Oracles, draw: real)
    requires ClinicalStep(session, form, email, models, scaler, o, draw).Assessed?
    ensures var out := ClinicalStep(session, form, email, models, scaler, o, draw);
      && Infer(out.logged, models, scaler, o, draw).Ok?
      && var p := Infer(out.logged, models, scaler, o, draw).value;
         && out.result.risk == RiskLabel(p.0, p.1)
         && out.result.prob == o.round(p.1 * 100.0, 1)
         && out.result.suggestion == HeartDiseasePredictor.GetLifestyleSuggestions(p.1)
  {
  }

  /** The label rule and its relation to the advice bands: High iff the class is 1 or the probability
      exceeds 0.5; every high-risk band probability is labelled High, and a Low label never comes
      with the high-risk advice. */
  lemma RiskRule(cls: real, prob: real)
    ensures RiskLabel(cls, prob) == "High" <==> cls == 1.0 || prob > 0.5
    ensures RiskLabel(cls, prob) == "Low" <==> cls != 1.0 && prob <= 0.5
    ensures prob >= 0.7 ==> RiskLabel(cls, prob) == "High"
    ensures RiskLabel(cls, prob) == "Low" ==> HeartDiseasePredictor.GetLifestyleSuggestions(prob) != HighRiskSuggestion
  {
    SuggestionBands(prob);
  }

  /** The label and the advice are computed separately and can disagree: class 1 with a low
      probability is High with the "looks good" advice, and 0.62 is High with the moderate advice. */
  lemma LabelAdviceDisagree()
    ensures RiskLabel(1.0, 0.1) == "High" && HeartDiseasePredictor.GetLifestyleSuggestions(0.1) == GoodSuggestion
    ensures RiskLabel(0.0, 0.62) == "High" && HeartDiseasePredictor.GetLifestyleSuggestions(0.62) == ModerateSuggestion
  {
    SuggestionBands(0.1);
    SuggestionBands(0.62);
  }

  /** Without trained models the heuristic decides, and the label is High exactly when the submitted
      systolic pressure is above 130 and cholesterol above 1: no random draw tips it either way. */
  lemma NoModelHighIffBoth(session: Session, form: Form, email: Option<string>,
                           scaler: Option<Scaler>, o: Oracles, draw: real)
    requires 0.0 <= draw < 1.0
    requires ClinicalStep(session, form, email, [], scaler, o, draw).Assessed?
    ensures var out := ClinicalStep(session, form, email, [], scaler, o, draw);
      out.result.risk == "High" <==> out.logged["ap_hi"] > 130.0 && out.logged["cholesterol"] > 1.0
  {
    var data := ClinicalRecord(session, form).value;
    var logged := WithBmi(data).value;
    WithBmiAddsOnlyBmi(data);
    ClinicalRecordShape(session, form);
    NoModelsUsesFallback(logged, scaler, o, draw);
    FallbackBounds(logged, draw);
  }

  // ---------------------------------------------------------------------------------------------
  // profile

  /** The streak is one day at most, and only the newest activity's date decides it. */
  lemma StreakRule(activityDates: seq<string>, today: string)
    ensures Streak(activityDates, today) <= 1
    ensures Streak(activityDates, today) == 1 <==> activityDates != [] && activityDates[0] == today
    ensures activityDates != [] ==> Streak(activityDates, today) == Streak(activityDates[..1], today)
  {
  }

  lemma TestTypeRule(inputKeys: set<string>)
    ensures TestType(inputKeys) == Clinical <==> "ap_hi" in inputKeys
    ensures TestType(inputKeys) == Lifestyle <==> "ap_hi" !in inputKeys
  {
  }

  /** Chart scaling maps a probability in [0, 1] into [0, 100] and leaves values above 1 alone. */
  lemma ChartScaling(prob: real)
    ensures 0.0 <= prob <= 1.0 ==> 0.0 <= ChartValue(prob) <= 100.0 && ChartValue(prob) == prob * 100.0
    ensures prob > 1.0 ==> ChartValue(prob) == prob
    ensures prob >= 0.0 ==> ChartValue(prob) >= prob
  {
  }

  /** Stored results are already percentages (round(prob * 100, 1), or 10.0 for the short-circuit), so
      a stored 1.0 is scaled again and charted at 100, above the short-circuit's 10. */
  lemma ChartRescalesSmallPercent()
    ensures ChartValue(1.0) == 100.0
    ensures ChartValue(LowRiskResult.prob) == 10.0
    ensures ChartValue(1.0) > ChartValue(LowRiskResult.prob)
  {
  }

  /** When every row charts, the chart has one point per row, oldest (last in history) first. */
  lemma {:induction false} ChartOldestFirst(history: seq<HistoryRow>)
    requires forall k :: 0 <= k < |history| ==> Point(history[k]).Some?
    ensures |Points(history)| == |history|
    ensures forall k :: 0 <= k < |history| ==> Points(history)[k] == Point(history[|history| - 1 - k]).value
  {
    if history != [] {
      ChartOldestFirst(history[1..]);
      assert Points(history) == Points(history[1..]) + [Point(history[0]).value];
    }
  }

  /** The values the chart loop appends are always those of the points. */
  lemma {:induction false} DataFollowsPoints(history: seq<HistoryRow>)
    ensures |DataAsWritten(history)| == |Points(history)|
    ensures forall k :: 0 <= k < |Points(history)| ==> DataAsWritten(history)[k] == Points(history)[k].1
  {
    if history != [] {
      DataFollowsPoints(history[1..]);
    }
  }

  /** The labels the loop appends match the points whenever every decoded, dated row's prob converts;
      there the as-written series and the corrected one coincide. */
  lemma {:induction false} LabelsFollowPoints(history: seq<HistoryRow>)
    requires forall k :: 0 <= k < |history| && history[k].result.Some? && history[k].dateLabel.Some? ==>
      ProbFloat(history[k].result.value).Some?
    ensures |LabelsAsWritten(history)| == |Points(history)|
    ensures forall k :: 0 <= k < |Points(history)| ==> LabelsAsWritten(history)[k] == Points(history)[k].0
  {
    if history != [] {
      LabelsFollowPoints(history[1..]);
    }
  }

  /** As written, a row whose result decodes and whose timestamp parses but whose prob does not
      convert adds a label and no value, so the two chart arrays fall out of step. */
  lemma ChartMisalignedAsWritten()
    ensures var history := [HistoryRow(Some(NoProb), Some("Oct 14"), Some({"ap_hi"}))];
      LabelsAsWritten(history) == ["Oct 14"] && DataAsWritten(history) == []
  {
    var history := [HistoryRow(Some(NoProb), Some("Oct 14"), Some({"ap_hi"}))];
    assert history[1..] == [];
  }

  /** When every row parses, the table lists every row, in history order. */
  lemma {:induction false} RecentTestsAllParse(history: seq<HistoryRow>)
    requires forall k :: 0 <= k < |history| ==> AsTest(history[k]).Some?
    ensures |RecentTests(history)| == |history|
    ensures forall k :: 0 <= k < |history| ==> RecentTests(history)[k] == AsTest(history[k]).value
  {
    if history != [] {
      var init := history[..|history| - 1];
      RecentTestsAllParse(init);
      assert forall k :: 0 <= k < |init| ==> init[k] == history[k];
    }
  }

  /** A table row's type, as profile computes it, is that of the record it came from. */
  lemma RecentTestsTyped(history: seq<HistoryRow>)
    ensures forall t :: t in RecentTests(history) ==>
      t.row.inputKeys.Some? && t.kind == TestType(t.row.inputKeys.value) && t.row.result == Some(NumProb(t.prob))
  {
    if history != [] {
      RecentTestsTyped(history[..|history| - 1]);
    }
  }
}
