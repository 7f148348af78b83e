/** The encode-and-align front end of the predictor (app2.py:119-164) and
    the two-way verdict (app2.py:172, 188). The scaler and the classifier
    sit between these two and are not part of this model. */
module Pipeline {
  import opened Wrappers
  import opened Form
  import opened Codes
  import opened Encoding
  import opened Alignment

  /** The row handed to the scaler for an observation: it exists exactly
      when every dictionary label is known, has one cell per schema column,
      and carries each numeric answer in every schema column of its name. */
  function EncodeRow(obs: Observation, schema: seq<string>): (r: Result<seq<Value>, EncodeError>)
    ensures r.Success? <==>
      obs.chestPain in ChestPainOptions && obs.restingEcg in RestingEcgOptions && obs.stSlope in StSlopeOptions
    ensures r.Success? ==> |r.value| == |schema|
    ensures r.Failure? ==> r == Failure(EncodeCategories(obs).error)
    ensures r.Success? ==> forall i :: 0 <= i < |schema| && schema[i] == AgeColumn ==> r.value[i] == Int(obs.age)
    ensures r.Success? ==> forall i :: 0 <= i < |schema| && schema[i] == RestingBpColumn ==> r.value[i] == Int(obs.restingBp)
    ensures r.Success? ==> forall i :: 0 <= i < |schema| && schema[i] == CholesterolColumn ==> r.value[i] == Int(obs.cholesterol)
    ensures r.Success? ==> forall i :: 0 <= i < |schema| && schema[i] == FastingBsColumn ==> r.value[i] == Int(FastingBsCode(obs.fastingBs))
    ensures r.Success? ==> forall i :: 0 <= i < |schema| && schema[i] == MaxHrColumn ==> r.value[i] == Int(obs.maxHr)
    ensures r.Success? ==> forall i :: 0 <= i < |schema| && schema[i] == OldpeakColumn ==> r.value[i] == Tenths(obs.oldpeak)
    ensures r.Success? ==> r.value == Reindex(Encode(obs).value, schema)
  {
    var record :- Encode(obs);
    EncodeShape(obs);
    Success(Reindex(record, schema))
  }

  /** Keys present in a record with value 1 read as 1 after alignment. */
  lemma ReindexOnes(r: Record, schema: seq<string>, keys: set<string>)
    requires forall k :: k in keys ==> k in r && r[k] == Int(1)
    ensures forall i :: 0 <= i < |schema| && schema[i] in keys ==> Reindex(r, schema)[i] == Int(1)
  {
  }

  /** Every indicator key of the answers that the schema lists holds 1 in
      the row. */
  lemma EncodeRowIndicators(obs: Observation, schema: seq<string>)
    ensures EncodeRow(obs, schema).Success? ==>
      forall i :: 0 <= i < |schema| && schema[i] in IndicatorKeys(EncodeCategories(obs).value) ==>
        EncodeRow(obs, schema).value[i] == Int(1)
  {
    if EncodeRow(obs, schema).Success? {
      var codes := EncodeCategories(obs).value;
      var record := Encode(obs).value;
      assert record == RawInput(obs, codes);
      IndicatorValues(obs, codes);
      ReindexOnes(record, schema, IndicatorKeys(codes));
    }
  }

  /** Every schema column the record lacks holds 0 in the row. */
  lemma EncodeRowZeroFill(obs: Observation, schema: seq<string>)
    ensures EncodeRow(obs, schema).Success? ==>
      forall i :: 0 <= i < |schema| && schema[i] !in Encode(obs).value ==> EncodeRow(obs, schema).value[i] == Zero
  {
  }

  /** The indicator column each offered choice selects. */
  function SexColumn(s: Sex): string {
    SexPrefix + SexChoiceCode(s)
  }

  function ChestPainColumn(c: ChestPain): string {
    ChestPainPrefix + ChestPainChoiceCode(c)
  }

  function RestingEcgColumn(e: RestingEcg): string {
    RestingEcgPrefix + RestingEcgChoiceCode(e)
  }

  function ExerciseAnginaColumn(y: YesNo): string {
    ExerciseAnginaPrefix + ExerciseAnginaChoiceCode(y)
  }

  function StSlopeColumn(s: StSlope): string {
    StSlopePrefix + StSlopeChoiceCode(s)
  }

  /** The indicator column of every offered choice, as the dictionaries and
      two-way tests name them. */
  lemma ChestPainColumns()
    ensures ChestPainColumn(Asymptomatic) == "ChestPainType_ASY"
    ensures ChestPainColumn(AtypicalAngina) == "ChestPainType_ATA"
    ensures ChestPainColumn(NonAnginalPain) == "ChestPainType_NAP"
    ensures ChestPainColumn(TypicalAngina) == "ChestPainType_TA"
  {
  }

  lemma RestingEcgColumns()
    ensures RestingEcgColumn(Normal) == "RestingECG_Normal"
    ensures RestingEcgColumn(StTWaveAbnormality) == "RestingECG_ST"
    ensures RestingEcgColumn(LeftVentricularHypertrophy) == "RestingECG_LVH"
  {
  }

  lemma StSlopeColumns()
    ensures StSlopeColumn(Upsloping) == "ST_Slope_Up"
    ensures StSlopeColumn(Flat) == "ST_Slope_Flat"
    ensures StSlopeColumn(Downsloping) == "ST_Slope_Down"
  {
  }

  lemma TwoWayColumns()
    ensures SexColumn(Male) == "Sex_M" && SexColumn(Female) == "Sex_F"
    ensures ExerciseAnginaColumn(Yes) == "ExerciseAngina_Y" && ExerciseAnginaColumn(No) == "ExerciseAngina_N"
  {
  }

  /** The record of a submission through the form. */
  function SubmittedRecord(a: Answers): (r: Record)
    ensures Encode(Submit(a)) == Success(r)
  {
    LabelsAreOptions();
    EncodeShape(Submit(a));
    Encode(Submit(a)).value
  }

  /** A submission's record is one-hot in every field, on the code of the
      chosen option. */
  lemma SubmittedOneHot(a: Answers)
    ensures OneHot(SubmittedRecord(a), SexPrefix, SexChoiceCode(a.sex))
    ensures OneHot(SubmittedRecord(a), ChestPainPrefix, ChestPainChoiceCode(a.chestPain))
    ensures OneHot(SubmittedRecord(a), RestingEcgPrefix, RestingEcgChoiceCode(a.restingEcg))
    ensures OneHot(SubmittedRecord(a), ExerciseAnginaPrefix, ExerciseAnginaChoiceCode(a.exerciseAngina))
    ensures OneHot(SubmittedRecord(a), StSlopePrefix, StSlopeChoiceCode(a.stSlope))
  {
    EncodeShape(Submit(a));
  }

  /** In a one-hot record a sibling column is present exactly when its code
      is the chosen one. */
  lemma SiblingColumn(r: Record, prefix: string, chosen: string, other: string)
    requires OneHot(r, prefix, chosen)
    ensures prefix + other in r <==> other == chosen
  {
    PrefixOfConcat(prefix, other);
  }

  /** For a submission, each categorical field's sibling columns: the one of
      the chosen option is present with value 1, every other one is absent. */
  lemma AnswersOneHot(a: Answers)
    ensures forall s :: SexColumn(s) in SubmittedRecord(a) <==> s == a.sex
    ensures forall c :: ChestPainColumn(c) in SubmittedRecord(a) <==> c == a.chestPain
    ensures forall e :: RestingEcgColumn(e) in SubmittedRecord(a) <==> e == a.restingEcg
    ensures forall y :: ExerciseAnginaColumn(y) in SubmittedRecord(a) <==> y == a.exerciseAngina
    ensures forall s :: StSlopeColumn(s) in SubmittedRecord(a) <==> s == a.stSlope
    ensures SubmittedRecord(a)[SexColumn(a.sex)] == Int(1)
    ensures SubmittedRecord(a)[ChestPainColumn(a.chestPain)] == Int(1)
    ensures SubmittedRecord(a)[RestingEcgColumn(a.restingEcg)] == Int(1)
    ensures SubmittedRecord(a)[ExerciseAnginaColumn(a.exerciseAngina)] == Int(1)
    ensures SubmittedRecord(a)[StSlopeColumn(a.stSlope)] == Int(1)
  {
    var r := SubmittedRecord(a);
    SubmittedOneHot(a);
    ChoiceCodesInjective();
    forall s: Sex ensures SexColumn(s) in r <==> s == a.sex {
      SiblingColumn(r, SexPrefix, SexChoiceCode(a.sex), SexChoiceCode(s));
    }
    forall c: ChestPain ensures ChestPainColumn(c) in r <==> c == a.chestPain {
      SiblingColumn(r, ChestPainPrefix, ChestPainChoiceCode(a.chestPain), ChestPainChoiceCode(c));
    }
    forall e: RestingEcg ensures RestingEcgColumn(e) in r <==> e == a.restingEcg {
      SiblingColumn(r, RestingEcgPrefix, RestingEcgChoiceCode(a.restingEcg), RestingEcgChoiceCode(e));
    }
    forall y: YesNo ensures ExerciseAnginaColumn(y) in r <==> y == a.exerciseAngina {
      SiblingColumn(r, ExerciseAnginaPrefix, ExerciseAnginaChoiceCode(a.exerciseAngina), ExerciseAnginaChoiceCode(y));
    }
    forall s: StSlope ensures StSlopeColumn(s) in r <==> s == a.stSlope {
      SiblingColumn(r, StSlopePrefix, StSlopeChoiceCode(a.stSlope), StSlopeChoiceCode(s));
    }
  }

  /** After alignment a column `prefix + other` of the schema is 1 when
      `other` is the chosen code of a one-hot field and 0 otherwise. */
  lemma AlignedSibling(r: Record, schema: seq<string>, i: int, prefix: string, chosen: string, other: string)
    requires OneHot(r, prefix, chosen)
    requires 0 <= i < |schema| && schema[i] == prefix + other
    ensures Reindex(r, schema)[i] == (if other == chosen then Int(1) else Zero)
  {
    SiblingColumn(r, prefix, chosen, other);
  }

  /** After alignment every chest pain column the schema lists is 1 for the
      chosen option and 0 for its siblings; likewise for the other fields. */
  lemma AlignedChestPain(a: Answers, schema: seq<string>, i: int, c: ChestPain)
    requires 0 <= i < |schema| && schema[i] == ChestPainColumn(c)
    ensures EncodeRow(Submit(a), schema).Success?
    ensures EncodeRow(Submit(a), schema).value[i] == (if c == a.chestPain then Int(1) else Zero)
  {
    SubmittedOneHot(a);
    ChoiceCodesInjective();
    AlignedSibling(SubmittedRecord(a), schema, i, ChestPainPrefix, ChestPainChoiceCode(a.chestPain), ChestPainChoiceCode(c));
  }

  lemma AlignedRestingEcg(a: Answers, schema: seq<string>, i: int, e: RestingEcg)
    requires 0 <= i < |schema| && schema[i] == RestingEcgColumn(e)
    ensures EncodeRow(Submit(a), schema).Success?
    ensures EncodeRow(Submit(a), schema).value[i] == (if e == a.restingEcg then Int(1) else Zero)
  {
    SubmittedOneHot(a);
    ChoiceCodesInjective();
    AlignedSibling(SubmittedRecord(a), schema, i, RestingEcgPrefix, RestingEcgChoiceCode(a.restingEcg), RestingEcgChoiceCode(e));
  }

  lemma AlignedStSlope(a: Answers, schema: seq<string>, i: int, s: StSlope)
    requires 0 <= i < |schema| && schema[i] == StSlopeColumn(s)
    ensures EncodeRow(Submit(a), schema).Success?
    ensures EncodeRow(Submit(a), schema).value[i] == (if s == a.stSlope then Int(1) else Zero)
  {
    SubmittedOneHot(a);
    ChoiceCodesInjective();
    AlignedSibling(SubmittedRecord(a), schema, i, StSlopePrefix, StSlopeChoiceCode(a.stSlope), StSlopeChoiceCode(s));
  }

  lemma AlignedSex(a: Answers, schema: seq<string>, i: int, s: Sex)
    requires 0 <= i < |schema| && schema[i] == SexColumn(s)
    ensures EncodeRow(Submit(a), schema).Success?
    ensures EncodeRow(Submit(a), schema).value[i] == (if s == a.sex then Int(1) else Zero)
  {
    SubmittedOneHot(a);
    ChoiceCodesInjective();
    AlignedSibling(SubmittedRecord(a), schema, i, SexPrefix, SexChoiceCode(a.sex), SexChoiceCode(s));
  }

  lemma AlignedExerciseAngina(a: Answers, schema: seq<string>, i: int, y: YesNo)
    requires 0 <= i < |schema| && schema[i] == ExerciseAnginaColumn(y)
    ensures EncodeRow(Submit(a), schema).Success?
    ensures EncodeRow(Submit(a), schema).value[i] == (if y == a.exerciseAngina then Int(1) else Zero)
  {
    SubmittedOneHot(a);
    ChoiceCodesInjective();
    AlignedSibling(SubmittedRecord(a), schema, i, ExerciseAnginaPrefix,
                   ExerciseAnginaChoiceCode(a.exerciseAngina), ExerciseAnginaChoiceCode(y));
  }

  /** Missing-column fill: a schema's typical-angina column is 0 for any
      other chest pain answer. */
  lemma TypicalAnginaColumnIsZero(a: Answers, schema: seq<string>, i: int)
    requires 0 <= i < |schema| && schema[i] == "ChestPainType_TA"
    requires a.chestPain != TypicalAngina
    ensures EncodeRow(Submit(a), schema).Success?
    ensures EncodeRow(Submit(a), schema).value[i] == Zero
  {
    assert schema[i] == ChestPainColumn(TypicalAngina);
    AlignedChestPain(a, schema, i, TypicalAngina);
  }

  /** Age 40, male, asymptomatic, blood pressure 120, cholesterol 200, no
      high fasting sugar, normal ECG, max heart rate 150, no exercise
      angina, ST depression 1.0, upsloping ST segment. */
  const ScenarioAnswers: Answers :=
    Answers(40, Male, Asymptomatic, 120, 200, No, Normal, 150, No, 10, Upsloping)

  /** The scenario's observation and codes. */
  lemma ScenarioCodes()
    ensures Submit(ScenarioAnswers) == ScenarioObservation
    ensures EncodeCategories(ScenarioObservation) == Success(ScenarioCodeValues)
  {
  }

  const ScenarioObservation: Observation :=
    Observation(40, "Male", "Asymptomatic", 120, 200, "No", "Normal", 150, "No", 10, "Upsloping")
  const ScenarioCodeValues: CategoryCodes := CategoryCodes("M", "ASY", 0, "Normal", "N", "Up")

  lemma ScenarioRecordParts()
    ensures SubmittedRecord(ScenarioAnswers) ==
      NumericPart(ScenarioObservation, 0) + IndicatorPart(ScenarioCodeValues)
  {
    ScenarioCodes();
  }

  lemma ScenarioIndicators()
    ensures IndicatorPart(ScenarioCodeValues) == map[
      "Sex_M" := Int(1), "ChestPainType_ASY" := Int(1), "RestingECG_Normal" := Int(1),
      "ExerciseAngina_N" := Int(1), "ST_Slope_Up" := Int(1)]
  {
    assert SexPrefix + "M" == "Sex_M";
    assert ChestPainPrefix + "ASY" == "ChestPainType_ASY";
    assert RestingEcgPrefix + "Normal" == "RestingECG_Normal";
    assert ExerciseAnginaPrefix + "N" == "ExerciseAngina_N";
    assert StSlopePrefix + "Up" == "ST_Slope_Up";
  }

  lemma ScenarioNumbers()
    ensures NumericPart(ScenarioObservation, 0) == map[
      "Age" := Int(40), "RestingBP" := Int(120), "Cholesterol" := Int(200),
      "FastingBS" := Int(0), "MaxHR" := Int(150), "Oldpeak" := Tenths(10)]
  {
  }

  lemma ScenarioUnion(numeric: Record, indicators: Record)
    requires numeric == map[
      "Age" := Int(40), "RestingBP" := Int(120), "Cholesterol" := Int(200),
      "FastingBS" := Int(0), "MaxHR" := Int(150), "Oldpeak" := Tenths(10)]
    requires indicators == map[
      "Sex_M" := Int(1), "ChestPainType_ASY" := Int(1), "RestingECG_Normal" := Int(1),
      "ExerciseAngina_N" := Int(1), "ST_Slope_Up" := Int(1)]
    ensures numeric + indicators == map[
      "Age" := Int(40), "RestingBP" := Int(120), "Cholesterol" := Int(200),
      "FastingBS" := Int(0), "MaxHR" := Int(150), "Oldpeak" := Tenths(10),
      "Sex_M" := Int(1), "ChestPainType_ASY" := Int(1), "RestingECG_Normal" := Int(1),
      "ExerciseAngina_N" := Int(1), "ST_Slope_Up" := Int(1)]
  {
  }

  lemma ScenarioRecord()
    ensures SubmittedRecord(ScenarioAnswers) == map[
      "Age" := Int(40), "RestingBP" := Int(120), "Cholesterol" := Int(200),
      "FastingBS" := Int(0), "MaxHR" := Int(150), "Oldpeak" := Tenths(10),
      "Sex_M" := Int(1), "ChestPainType_ASY" := Int(1), "RestingECG_Normal" := Int(1),
      "ExerciseAngina_N" := Int(1), "ST_Slope_Up" := Int(1)]
  {
    ScenarioRecordParts();
    ScenarioNumbers();
    ScenarioIndicators();
    ScenarioUnion(NumericPart(ScenarioObservation, 0), IndicatorPart(ScenarioCodeValues));
  }

  /** The banner shown for the classifier's label. */
  datatype Verdict = HighRisk | LowRisk

  function VerdictOf(prediction: int): (v: Verdict)
    ensures v == HighRisk <==> prediction == 1
  {
    if prediction == 1 then HighRisk else LowRisk
  }
}
