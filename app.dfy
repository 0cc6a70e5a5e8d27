/** The decision rules inside the Flask handlers of app.py: the lifestyle triage of predictor_stage1,
    the clinical record and the High/Low label of predictor_stage2, and the streak, the risk chart, the
    test type and the highest-risk scan of profile.

    Routing, templates, SQLite, e-mail delivery, json decoding and datetime formatting stay outside:
    a submitted form is a map from field names to values, the session keeps the six keys the two
    stages share, and a stored history row arrives already decoded into what profile reads of it. */
module HeartGuardApp {
  import opened Wrappers
  import opened Predictor

  // ---------------------------------------------------------------------------------------------
  // Requests and the session

  /** A submitted form value: its text and what Python's float() and int() make of that text
      (None where the conversion raises ValueError). */
  datatype Field = Field(text: string, asFloat: Option<real>, asInt: Option<int>)

  type Form = map<string, Field>

  /** A session key: never written, written with None (form.get of a missing field), or written with a value. */
  datatype Slot = Unset | NoneValue | Stored(field: Field)

  /** The session keys p_age, p_weight, p_height (form values) and p_smoke, p_alco, p_active (flags). */
  datatype Session = Session(age: Slot, weight: Slot, height: Slot,
                             smoke: Option<int>, alco: Option<int>, active: Option<int>)

  /** A session in which predictor_stage1 has never run. */
  const FreshSession: Session := Session(Unset, Unset, Unset, None, None, None)

  /** The result dict shown and stored: risk label, probability in percent, advice. */
  datatype Assessment = Assessment(risk: string, prob: real, suggestion: string)

  const HealthyLifestyle: string := "Your lifestyle markers are healthy. Maintain your activity levels."
  const LowRiskResult: Assessment := Assessment("Low", 10.0, HealthyLifestyle)

  // ---------------------------------------------------------------------------------------------
  // predictor_stage1

  /** 1 if request.form.get(key) is truthy (present and non-empty), else 0. */
  function Flag(form: Form, key: string): int {
    if key in form && form[key].text != "" then 1 else 0
  }

  /** session[...] = request.form.get(key): None when the field was not submitted. */
  function Keep(form: Form, key: string): Slot {
    if key in form then Stored(form[key]) else NoneValue
  }

  /** The session after a stage-one POST; it is written before the age is converted. */
  function LifestyleSession(form: Form): (s: Session)
    ensures s.smoke.Some? && s.alco.Some? && s.active.Some?
  {
    Session(Keep(form, "age"), Keep(form, "weight"), Keep(form, "height"),
            Some(Flag(form, "smoke")), Some(Flag(form, "alco")), Some(Flag(form, "active")))
  }

  /** float(request.form.get('age', 30)). */
  function LifestyleAge(form: Form): Result<real> {
    if "age" !in form then Ok(30.0)
    else if form["age"].asFloat.Some? then Ok(form["age"].asFloat.value)
    else Err("could not convert string to float")
  }

  predicate IsRiskyLifestyle(age: real, smoke: int, alco: int, active: int) {
    age > 45.0 || smoke == 1 || active == 0 || alco == 1
  }

  /** What a stage-one POST ends in: an unhandled conversion error, the redirect to the clinical
      step, or the short-circuit Low result together with the input_data it logs. */
  datatype LifestyleOutcome =
    | Crashed(error: string)
    | ToClinical
    | ShortCircuit(result: Assessment, logged: map<string, real>)

  function PredictorStage1(form: Form): (Session, LifestyleOutcome) {
    var s := LifestyleSession(form);
    match LifestyleAge(form)
    case Err(e) => (s, Crashed(e))
    case Ok(age) =>
      if IsRiskyLifestyle(age, s.smoke.value, s.alco.value, s.active.value) then (s, ToClinical)
      else (s, ShortCircuit(LowRiskResult, map["age" := age, "smoke" := s.smoke.value as real,
                                               "alco" := s.alco.value as real, "active" := s.active.value as real]))
  }

  // ---------------------------------------------------------------------------------------------
  // predictor_stage2

  /** float(session.get(key, default)); float(None) raises TypeError. */
  function SessionFloat(slot: Slot, default: real): Result<real> {
    match slot
    case Unset => Ok(default)
    case NoneValue => Err("float() argument must be a string or a real number, not 'NoneType'")
    case Stored(f) => if f.asFloat.Some? then Ok(f.asFloat.value) else Err("could not convert string to float")
  }

  /** float(request.form.get(key, default)). */
  function FormFloat(form: Form, key: string, default: real): Result<real> {
    if key !in form then Ok(default)
    else if form[key].asFloat.Some? then Ok(form[key].asFloat.value)
    else Err("could not convert string to float")
  }

  /** int(request.form.get(key, default)). */
  function FormInt(form: Form, key: string, default: int): Result<int> {
    if key !in form then Ok(default)
    else if form[key].asInt.Some? then Ok(form[key].asInt.value)
    else Err("invalid literal for int()")
  }

  function SessionFlag(v: Option<int>, default: int): int {
    if v.Some? then v.value else default
  }

  /** The data dict of predictor_stage2, built entry by entry in the order the source lists them. */
  function ClinicalRecord(session: Session, form: Form): Result<map<string, real>> {
    var years :- SessionFloat(session.age, 50.0);
    var gender :- FormInt(form, "gender", 1);
    var height :- SessionFloat(session.height, 165.0);
    var weight :- SessionFloat(session.weight, 70.0);
    var apHi :- FormFloat(form, "ap_hi", 120.0);
    var apLo :- FormFloat(form, "ap_lo", 80.0);
    var cholesterol :- FormInt(form, "cholesterol", 1);
    var gluc :- FormInt(form, "gluc", 1);
    Ok(RecordMap(years * 365.0, gender as real, height, weight, apHi, apLo, cholesterol as real, gluc as real,
                 SessionFlag(session.smoke, 0) as real, SessionFlag(session.alco, 0) as real,
                 SessionFlag(session.active, 1) as real))
  }

  /** The eleven-key data dict of predictor_stage2. */
  function RecordMap(age: real, gender: real, height: real, weight: real, apHi: real, apLo: real,
                     cholesterol: real, gluc: real, smoke: real, alco: real, active: real): map<string, real> {
    map["age" := age, "gender" := gender, "height" := height, "weight" := weight,
        "ap_hi" := apHi, "ap_lo" := apLo, "cholesterol" := cholesterol, "gluc" := gluc,
        "smoke" := smoke, "alco" := alco, "active" := active]
  }

  lemma RecordMapEntries(age: real, gender: real, height: real, weight: real, apHi: real, apLo: real,
                         cholesterol: real, gluc: real, smoke: real, alco: real, active: real)
    ensures var r := RecordMap(age, gender, height, weight, apHi, apLo, cholesterol, gluc, smoke, alco, active);
      && r.Keys == {"age", "gender", "height", "weight", "ap_hi", "ap_lo", "cholesterol", "gluc", "smoke", "alco", "active"}
      && r["age"] == age && r["gender"] == gender && r["height"] == height && r["weight"] == weight
      && r["ap_hi"] == apHi && r["ap_lo"] == apLo && r["cholesterol"] == cholesterol && r["gluc"] == gluc
      && r["smoke"] == smoke && r["alco"] == alco && r["active"] == active
  {
  }

  /** "High" if pred == 1 or prob > 0.5, else "Low". */
  function RiskLabel(cls: real, prob: real): string {
    if cls == 1.0 || prob > 0.5 then "High" else "Low"
  }

  /** The result dict of a prediction; the stored probability is round(prob * 100, 1). */
  function Score(cls: real, prob: real, o: Oracles): Assessment {
    Assessment(RiskLabel(cls, prob), o.round(prob * 100.0, 1), HeartDiseasePredictor.GetLifestyleSuggestions(prob))
  }

  /** A risk alert is sent when the session holds a non-empty e-mail address. */
  predicate Alerts(email: Option<string>) {
    email.Some? && email.value != ""
  }

  /** What a stage-two POST ends in: any exception re-shows the clinical form; otherwise the
      assessment, the input_data logged with it (predict has added BMI to it) and whether an alert goes out. */
  datatype ClinicalOutcome =
    | FormAgain
    | Assessed(result: Assessment, logged: map<string, real>, alert: bool)

  function ClinicalStep(session: Session, form: Form, email: Option<string>,
                        models: seq<Entry>, scaler: Option<Scaler>, o: Oracles, draw: real): ClinicalOutcome
  {
    match ClinicalRecord(session, form)
    case Err(_) => FormAgain
    case Ok(data) =>
      match WithBmi(data)
      case Err(_) => FormAgain
      case Ok(logged) =>
        match Infer(logged, models, scaler, o, draw)
        case Err(_) => FormAgain
        case Ok(r) => Assessed(Score(r.0, r.1, o), logged, Alerts(email))
  }

  /** predictor_stage2 on a POST: build the record, let the engine predict on it (which adds BMI to
      the very dict that is then logged), label it and advise. */
  method PredictorStage2(engine: HeartDiseasePredictor, session: Session, form: Form, email: Option<string>,
                         o: Oracles, draw: real) returns (outcome: ClinicalOutcome)
    requires 0.0 <= draw < 1.0
    ensures outcome == ClinicalStep(session, form, email, engine.models, engine.scaler, o, draw)
  {
    var data := ClinicalRecord(session, form);
    if data.Err? {
      return FormAgain;
    }
    var input := new InputRecord(data.value);
    var r := engine.Predict(input, o, draw);
    if r.Err? {
      return FormAgain;
    }
    outcome := Assessed(Score(r.value.0, r.value.1, o), input.fields, Alerts(email));
  }

  // ---------------------------------------------------------------------------------------------
  // profile: streak and test type

  /** 1 when the newest activity (the first row, the query being ordered newest first) is dated today. */
  function Streak(activityDates: seq<string>, today: string): nat {
    if activityDates != [] && activityDates[0] == today then 1 else 0
  }

  datatype TestKind = Clinical | Lifestyle

  function TestType(inputKeys: set<string>): TestKind {
    if "ap_hi" in inputKeys then Clinical else Lifestyle
  }

  // ---------------------------------------------------------------------------------------------
  // profile: stored history rows

  /** The 'prob' entry of a decoded result: a number, a string (float() may or may not accept it),
      or missing / not reachable (a KeyError or TypeError). */
  datatype ProbValue = NumProb(v: real) | TextProb(asFloat: Option<real>) | NoProb

  /** A row of get_user_history as profile reads it: the decoded result's prob (None when the result
      does not decode), the '%b %d' label of its timestamp (None when strptime rejects it) and the
      keys of the decoded input_data (None when it does not decode). */
  datatype HistoryRow = HistoryRow(result: Option<ProbValue>, dateLabel: Option<string>, inputKeys: Option<set<string>>)

  /** float(res['prob']). */
  function ProbFloat(p: ProbValue): Option<real> {
    match p
    case NumProb(v) => Some(v)
    case TextProb(f) => f
    case NoProb => None
  }

  /** Chart scaling: a probability at most 1 is turned into percent, anything above is taken as percent. */
  function ChartValue(prob: real): real {
    if prob <= 1.0 then prob * 100.0 else prob
  }

  // ---------------------------------------------------------------------------------------------
  // profile: the risk chart

  /** The labels the chart loop appends, as written: a row's label goes in once its result decodes and
      its timestamp parses, before its prob is converted. */
  function LabelsAsWritten(history: seq<HistoryRow>): seq<string> {
    if history == [] then []
    else
      var named := if history[0].result.Some? && history[0].dateLabel.Some? then [history[0].dateLabel.value] else [];
      LabelsAsWritten(history[1..]) + named
  }

  /** The values the chart loop appends, as written. */
  function DataAsWritten(history: seq<HistoryRow>): seq<real> {
    if history == [] then []
    else
      var value := if Point(history[0]).Some? then [Point(history[0]).value.1] else [];
      DataAsWritten(history[1..]) + value
  }

  /** A row's chart point: its label and scaled value, when the result decodes, the timestamp parses
      and the prob converts. */
  function Point(row: HistoryRow): Option<(string, real)> {
    if row.result.Some? && row.dateLabel.Some? && ProbFloat(row.result.value).Some? then
      Some((row.dateLabel.value, ChartValue(ProbFloat(row.result.value).value)))
    else None
  }

  /** The chart's points over the history taken in reverse (oldest first), a point per row that charts. */
  function Points(history: seq<HistoryRow>): seq<(string, real)> {
    if history == [] then []
    else Points(history[1..]) + (if Point(history[0]).Some? then [Point(history[0]).value] else [])
  }

  /** The chart series, built as the loop over reversed(history) builds it, but appending a row's label
      only together with its value, so that labels[k] names data[k]. */
  method ChartSeries(history: seq<HistoryRow>) returns (labels: seq<string>, data: seq<real>)
    ensures |labels| == |data| == |Points(history)|
    ensures forall k :: 0 <= k < |data| ==> (labels[k], data[k]) == Points(history)[k]
  {
    labels, data := [], [];
    var i := |history|;
    while i > 0
      invariant 0 <= i <= |history|
      invariant |labels| == |data| == |Points(history[i..])|
      invariant forall k :: 0 <= k < |data| ==> (labels[k], data[k]) == Points(history[i..])[k]
    {
      i := i - 1;
      assert history[i..][1..] == history[i + 1..];
      var row := history[i];
      if row.result.Some? && row.dateLabel.Some? {
        var prob := ProbFloat(row.result.value);
        if prob.Some? {
          labels := labels + [row.dateLabel.value];
          data := data + [ChartValue(prob.value)];
        }
      }
    }
    assert history[0..] == history;
  }

  // ---------------------------------------------------------------------------------------------
  // profile: recent tests and the highest-risk test

  /** A row of the profile's table: the stored row, its type and the prob it was compared on. */
  datatype Test = Test(row: HistoryRow, kind: TestKind, prob: real)

  /** The row as a table entry, when its result and input_data decode and its prob is a number
      (a string prob makes `>` against a float raise TypeError, a missing one KeyError). */
  function AsTest(row: HistoryRow): Option<Test> {
    if row.result.Some? && row.inputKeys.Some? && row.result.value.NumProb? then
      Some(Test(row, TestType(row.inputKeys.value), row.result.value.v))
    else None
  }

  /** The rows that survive the table loop, in history order. */
  function RecentTests(history: seq<HistoryRow>): seq<Test> {
    if history == [] then []
    else
      var last := AsTest(history[|history| - 1]);
      RecentTests(history[..|history| - 1]) + (if last.Some? then [last.value] else [])
  }

  /** The table loop of profile: collect the rows that parse and track highest_risk_test with a strict
      `>` against max_prob starting at -1.0; the result is the first test of maximum prob, and None
      when no test has a prob above -1.0. */
  method ProfileTests(history: seq<HistoryRow>) returns (recent: seq<Test>, highest: Option<Test>)
    ensures recent == RecentTests(history)
    ensures highest.None? <==> forall k :: 0 <= k < |recent| ==> recent[k].prob <= -1.0
    ensures highest.Some? ==>
      exists k :: 0 <= k < |recent| && recent[k] == highest.value && recent[k].prob > -1.0
        && (forall j :: 0 <= j < |recent| ==> recent[j].prob <= recent[k].prob)
        && (forall j :: 0 <= j < k ==> recent[j].prob < recent[k].prob)
  {
    recent, highest := [], None;
    var maxProb := -1.0;
    ghost var at := -1;
    for i := 0 to |history|
      invariant recent == RecentTests(history[..i])
      invariant -1 <= at < |recent|
      invariant highest.None? <==> at == -1
      invariant at == -1 ==> maxProb == -1.0
      invariant at >= 0 ==> highest == Some(recent[at]) && maxProb == recent[at].prob && maxProb > -1.0
      invariant forall j :: 0 <= j < |recent| ==> recent[j].prob <= maxProb
      invariant forall j :: 0 <= j < at ==> recent[j].prob < maxProb
    {
      assert history[..i + 1][..i] == history[..i];
      var t := AsTest(history[i]);
      if t.Some? {
        if t.value.prob > maxProb {
          maxProb := t.value.prob;
          highest := t;
          at := |recent|;
        }
        recent := recent + [t.value];
      }
    }
    assert history[..|history|] == history;
  }
}
