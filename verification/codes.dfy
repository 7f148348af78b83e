/** The label-to-code mapping of the encoder (app2.py:119-140).

    Chest pain, resting ECG and ST slope go through fixed dictionaries, so a
    label that is not a key fails the way a Python `KeyError` does. Sex,
    fasting blood sugar and exercise angina go through a two-way test and
    accept every label. */
module Codes {
  import opened Wrappers
  import opened Form

  /** The categorical fields whose codes come from a dictionary. */
  datatype Field = ChestPainField | RestingEcgField | StSlopeField

  /** The label that a dictionary lookup did not find. */
  datatype EncodeError = UnknownLabel(field: Field, text: string)

  const ChestPainTable: map<string, string> := map[
    "Asymptomatic" := "ASY",
    "Atypical Angina" := "ATA",
    "Non-Anginal Pain" := "NAP",
    "Typical Angina" := "TA"]

  const RestingEcgTable: map<string, string> := map[
    "Normal" := "Normal",
    "ST-T Wave Abnormality" := "ST",
    "Left Ventricular Hypertrophy" := "LVH"]

  const StSlopeTable: map<string, string> := map[
    "Upsloping" := "Up",
    "Flat" := "Flat",
    "Downsloping" := "Down"]

  /** `table[text]`, failing on a missing key. */
  function Lookup(table: map<string, string>, field: Field, text: string): Result<string, EncodeError> {
    if text in table then Success(table[text]) else Failure(UnknownLabel(field, text))
  }

  /** A table is a bijection between `options` and its codes. */
  ghost predicate OneToOne(table: map<string, string>, options: seq<string>) {
    && (forall l :: l in table <==> l in options)
    && (forall l1, l2 :: l1 in table && l2 in table && table[l1] == table[l2] ==> l1 == l2)
  }

  function ChestPainCode(text: string): (r: Result<string, EncodeError>)
    ensures r.Success? <==> text in ChestPainOptions
    ensures r.Failure? ==> r.error == UnknownLabel(ChestPainField, text)
    ensures text == "Asymptomatic" ==> r == Success("ASY")
    ensures text == "Atypical Angina" ==> r == Success("ATA")
    ensures text == "Non-Anginal Pain" ==> r == Success("NAP")
    ensures text == "Typical Angina" ==> r == Success("TA")
  {
    Lookup(ChestPainTable, ChestPainField, text)
  }

  function RestingEcgCode(text: string): (r: Result<string, EncodeError>)
    ensures r.Success? <==> text in RestingEcgOptions
    ensures r.Failure? ==> r.error == UnknownLabel(RestingEcgField, text)
    ensures text == "Normal" ==> r == Success("Normal")
    ensures text == "ST-T Wave Abnormality" ==> r == Success("ST")
    ensures text == "Left Ventricular Hypertrophy" ==> r == Success("LVH")
  {
    Lookup(RestingEcgTable, RestingEcgField, text)
  }

  function StSlopeCode(text: string): (r: Result<string, EncodeError>)
    ensures r.Success? <==> text in StSlopeOptions
    ensures r.Failure? ==> r.error == UnknownLabel(StSlopeField, text)
    ensures text == "Upsloping" ==> r == Success("Up")
    ensures text == "Flat" ==> r == Success("Flat")
    ensures text == "Downsloping" ==> r == Success("Down")
  {
    Lookup(StSlopeTable, StSlopeField, text)
  }

  /** Every dictionary maps each option of its select box to exactly one
      code, has no other keys, and gives no two options the same code. */
  lemma TablesAreOneToOne()
    ensures OneToOne(ChestPainTable, ChestPainOptions)
    ensures OneToOne(RestingEcgTable, RestingEcgOptions)
    ensures OneToOne(StSlopeTable, StSlopeOptions)
  {
    ChestPainTableOneToOne();
    RestingEcgTableOneToOne();
    StSlopeTableOneToOne();
  }

  lemma ChestPainTableOneToOne()
    ensures OneToOne(ChestPainTable, ChestPainOptions)
  {
  }

  lemma RestingEcgTableOneToOne()
    ensures OneToOne(RestingEcgTable, RestingEcgOptions)
  {
  }

  lemma StSlopeTableOneToOne()
    ensures OneToOne(StSlopeTable, StSlopeOptions)
  {
  }

  function SexCode(text: string): (code: string)
    ensures code == "M" || code == "F"
    ensures code == "M" <==> text == "Male"
  {
    if text == "Male" then "M" else "F"
  }

  function FastingBsCode(text: string): (flag: int)
    ensures flag == 0 || flag == 1
    ensures flag == 1 <==> text == "Yes"
  {
    if text == "Yes" then 1 else 0
  }

  function ExerciseAnginaCode(text: string): (code: string)
    ensures code == "Y" || code == "N"
    ensures code == "Y" <==> text == "Yes"
  {
    if text == "Yes" then "Y" else "N"
  }

  /** The codes of the offered choices, field by field. */
  function SexChoiceCode(s: Sex): string {
    SexCode(SexLabel(s))
  }

  function ChestPainChoiceCode(c: ChestPain): string {
    LabelsAreOptions();
    ChestPainCode(ChestPainLabel(c)).value
  }

  function YesNoFlag(y: YesNo): int {
    FastingBsCode(YesNoLabel(y))
  }

  function ExerciseAnginaChoiceCode(y: YesNo): string {
    ExerciseAnginaCode(YesNoLabel(y))
  }

  function RestingEcgChoiceCode(e: RestingEcg): string {
    LabelsAreOptions();
    RestingEcgCode(RestingEcgLabel(e)).value
  }

  function StSlopeChoiceCode(s: StSlope): string {
    LabelsAreOptions();
    StSlopeCode(StSlopeLabel(s)).value
  }

  /** On the offered choices every field is encoded, and distinct choices
      get distinct codes (also for the two-way tests, whose "anything else"
      branch is reached by exactly one offered choice). */
  lemma ChoiceCodesInjective()
    ensures forall s1: Sex, s2: Sex :: SexChoiceCode(s1) == SexChoiceCode(s2) ==> s1 == s2
    ensures forall c1: ChestPain, c2: ChestPain :: ChestPainChoiceCode(c1) == ChestPainChoiceCode(c2) ==> c1 == c2
    ensures forall y1: YesNo, y2: YesNo :: YesNoFlag(y1) == YesNoFlag(y2) ==> y1 == y2
    ensures forall y1: YesNo, y2: YesNo :: ExerciseAnginaChoiceCode(y1) == ExerciseAnginaChoiceCode(y2) ==> y1 == y2
    ensures forall e1: RestingEcg, e2: RestingEcg :: RestingEcgChoiceCode(e1) == RestingEcgChoiceCode(e2) ==> e1 == e2
    ensures forall s1: StSlope, s2: StSlope :: StSlopeChoiceCode(s1) == StSlopeChoiceCode(s2) ==> s1 == s2
  {
    LabelsAreOptions();
    TablesAreOneToOne();
  }
}
