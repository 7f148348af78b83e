/** The answers the prediction form collects (app2.py:88-115).

    A categorical widget is a select box that returns one of its display
    labels as a string; the numeric widgets return plain numbers. The enum
    datatypes below name the choices a select box offers, and `Answers` is a
    submission made through the widgets, whereas `Observation` is what the
    encoder actually receives: labels as bare strings, so that the encoder's
    behaviour on a label outside the offered choices can be stated too. */
module Form {

  datatype Sex = Male | Female
  datatype ChestPain = Asymptomatic | AtypicalAngina | NonAnginalPain | TypicalAngina
  datatype RestingEcg = Normal | StTWaveAbnormality | LeftVentricularHypertrophy
  datatype YesNo = No | Yes
  datatype StSlope = Upsloping | Flat | Downsloping

  /** The option lists of the select boxes, in display order. */
  const SexOptions: seq<string> := ["Male", "Female"]
  const ChestPainOptions: seq<string> :=
    ["Asymptomatic", "Atypical Angina", "Non-Anginal Pain", "Typical Angina"]
  const YesNoOptions: seq<string> := ["No", "Yes"]
  const RestingEcgOptions: seq<string> :=
    ["Normal", "ST-T Wave Abnormality", "Left Ventricular Hypertrophy"]
  const StSlopeOptions: seq<string> := ["Upsloping", "Flat", "Downsloping"]

  function SexLabel(s: Sex): string {
    match s
    case Male => "Male"
    case Female => "Female"
  }

  function ChestPainLabel(c: ChestPain): string {
    match c
    case Asymptomatic => "Asymptomatic"
    case AtypicalAngina => "Atypical Angina"
    case NonAnginalPain => "Non-Anginal Pain"
    case TypicalAngina => "Typical Angina"
  }

  function YesNoLabel(y: YesNo): string {
    match y
    case No => "No"
    case Yes => "Yes"
  }

  function RestingEcgLabel(e: RestingEcg): string {
    match e
    case Normal => "Normal"
    case StTWaveAbnormality => "ST-T Wave Abnormality"
    case LeftVentricularHypertrophy => "Left Ventricular Hypertrophy"
  }

  function StSlopeLabel(s: StSlope): string {
    match s
    case Upsloping => "Upsloping"
    case Flat => "Flat"
    case Downsloping => "Downsloping"
  }

  /** The choices of each select box are exactly its labels: every choice
      shows one option, every option is shown by one choice, and no two
      choices share a label. */
  lemma LabelsAreOptions()
    ensures forall s: Sex :: SexLabel(s) in SexOptions
    ensures forall l :: l in SexOptions ==> exists s: Sex :: SexLabel(s) == l
    ensures forall s1: Sex, s2: Sex :: SexLabel(s1) == SexLabel(s2) ==> s1 == s2
    ensures forall c: ChestPain :: ChestPainLabel(c) in ChestPainOptions
    ensures forall l :: l in ChestPainOptions ==> exists c: ChestPain :: ChestPainLabel(c) == l
    ensures forall c1: ChestPain, c2: ChestPain :: ChestPainLabel(c1) == ChestPainLabel(c2) ==> c1 == c2
    ensures forall y: YesNo :: YesNoLabel(y) in YesNoOptions
    ensures forall l :: l in YesNoOptions ==> exists y: YesNo :: YesNoLabel(y) == l
    ensures forall y1: YesNo, y2: YesNo :: YesNoLabel(y1) == YesNoLabel(y2) ==> y1 == y2
    ensures forall e: RestingEcg :: RestingEcgLabel(e) in RestingEcgOptions
    ensures forall l :: l in RestingEcgOptions ==> exists e: RestingEcg :: RestingEcgLabel(e) == l
    ensures forall e1: RestingEcg, e2: RestingEcg :: RestingEcgLabel(e1) == RestingEcgLabel(e2) ==> e1 == e2
    ensures forall s: StSlope :: StSlopeLabel(s) in StSlopeOptions
    ensures forall l :: l in StSlopeOptions ==> exists s: StSlope :: StSlopeLabel(s) == l
    ensures forall s1: StSlope, s2: StSlope :: StSlopeLabel(s1) == StSlopeLabel(s2) ==> s1 == s2
  {
    assert SexLabel(Male) == SexOptions[0] && SexLabel(Female) == SexOptions[1];
    assert ChestPainLabel(Asymptomatic) == ChestPainOptions[0];
    assert ChestPainLabel(AtypicalAngina) == ChestPainOptions[1];
    assert ChestPainLabel(NonAnginalPain) == ChestPainOptions[2];
    assert ChestPainLabel(TypicalAngina) == ChestPainOptions[3];
    assert YesNoLabel(No) == YesNoOptions[0] && YesNoLabel(Yes) == YesNoOptions[1];
    assert RestingEcgLabel(Normal) == RestingEcgOptions[0];
    assert RestingEcgLabel(StTWaveAbnormality) == RestingEcgOptions[1];
    assert RestingEcgLabel(LeftVentricularHypertrophy) == RestingEcgOptions[2];
    assert StSlopeLabel(Upsloping) == StSlopeOptions[0];
    assert StSlopeLabel(Flat) == StSlopeOptions[1];
    assert StSlopeLabel(Downsloping) == StSlopeOptions[2];
  }

  /** What the encoder receives: the values the widgets returned.
      `oldpeak` is the ST depression in tenths (the slider steps by 0.1). */
  datatype Observation = Observation(
    age: int,
    sex: string,
    chestPain: string,
    restingBp: int,
    cholesterol: int,
    fastingBs: string,
    restingEcg: string,
    maxHr: int,
    exerciseAngina: string,
    oldpeak: int,
    stSlope: string)

  /** A submission made through the widgets: every categorical answer is one
      of the offered choices. */
  datatype Answers = Answers(
    age: int,
    sex: Sex,
    chestPain: ChestPain,
    restingBp: int,
    cholesterol: int,
    fastingBs: YesNo,
    restingEcg: RestingEcg,
    maxHr: int,
    exerciseAngina: YesNo,
    oldpeak: int,
    stSlope: StSlope)

  /** The observation a submission hands to the encoder: each select box
      yields the label of the chosen option, each number is passed as is. */
  function Submit(a: Answers): (obs: Observation)
    ensures obs.sex in SexOptions && obs.chestPain in ChestPainOptions
    ensures obs.fastingBs in YesNoOptions && obs.exerciseAngina in YesNoOptions
    ensures obs.restingEcg in RestingEcgOptions && obs.stSlope in StSlopeOptions
    ensures obs.age == a.age && obs.restingBp == a.restingBp && obs.cholesterol == a.cholesterol
    ensures obs.maxHr == a.maxHr && obs.oldpeak == a.oldpeak
    ensures obs.sex == SexLabel(a.sex) && obs.chestPain == ChestPainLabel(a.chestPain)
    ensures obs.fastingBs == YesNoLabel(a.fastingBs) && obs.exerciseAngina == YesNoLabel(a.exerciseAngina)
    ensures obs.restingEcg == RestingEcgLabel(a.restingEcg) && obs.stSlope == StSlopeLabel(a.stSlope)
  {
    LabelsAreOptions();
    Observation(a.age, SexLabel(a.sex), ChestPainLabel(a.chestPain), a.restingBp,
                a.cholesterol, YesNoLabel(a.fastingBs), RestingEcgLabel(a.restingEcg),
                a.maxHr, YesNoLabel(a.exerciseAngina), a.oldpeak, StSlopeLabel(a.stSlope))
  }
}
