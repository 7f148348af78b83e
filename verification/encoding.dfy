/** Construction of the flat input record (app2.py:119-156): six numeric
    columns under their own names plus one `Prefix_Code: 1` indicator
    column per categorical field. */
module Encoding {
  import opened Wrappers
  import opened Form
  import opened Codes

  /** A cell of the one-row input frame. `Tenths` carries the ST depression,
      a decimal with one fractional digit, as a count of tenths. */
  datatype Value = Int(n: int) | Tenths(t: int)

  /** The value written into a schema column the record lacks. */
  const Zero: Value := Int(0)

  /** The one-row frame before alignment, keyed by column name. */
  type Record = map<string, Value>

  const AgeColumn := "Age"
  const RestingBpColumn := "RestingBP"
  const CholesterolColumn := "Cholesterol"
  const FastingBsColumn := "FastingBS"
  const MaxHrColumn := "MaxHR"
  const OldpeakColumn := "Oldpeak"

  const NumericColumns: set<string> :=
    {AgeColumn, RestingBpColumn, CholesterolColumn, FastingBsColumn, MaxHrColumn, OldpeakColumn}

  const SexPrefix := "Sex_"
  const ChestPainPrefix := "ChestPainType_"
  const RestingEcgPrefix := "RestingECG_"
  const ExerciseAnginaPrefix := "ExerciseAngina_"
  const StSlopePrefix := "ST_Slope_"

  /** The codes of the six categorical answers. */
  datatype CategoryCodes = CategoryCodes(
    sex: string,
    chestPain: string,
    fastingBs: int,
    restingEcg: string,
    exerciseAngina: string,
    stSlope: string)

  /** The indicator keys the codes select, one per categorical field. */
  function IndicatorKeys(c: CategoryCodes): set<string> {
    {SexPrefix + c.sex, ChestPainPrefix + c.chestPain, RestingEcgPrefix + c.restingEcg,
     ExerciseAnginaPrefix + c.exerciseAngina, StSlopePrefix + c.stSlope}
  }

  /** Exactly one key of `r` starts with `prefix`: the one ending in `code`,
      and it holds 1. */
  ghost predicate OneHot(r: Record, prefix: string, code: string) {
    && prefix + code in r
    && r[prefix + code] == Int(1)
    && forall k :: k in r && prefix <= k ==> k == prefix + code
  }

  /** The categorical part of the encoder. The dictionary lookups run in
      source order (chest pain, resting ECG, ST slope), so the first unknown
      label among them is the one reported. */
  function EncodeCategories(obs: Observation): (r: Result<CategoryCodes, EncodeError>)
    ensures r.Success? <==>
      obs.chestPain in ChestPainOptions && obs.restingEcg in RestingEcgOptions && obs.stSlope in StSlopeOptions
    ensures obs.chestPain !in ChestPainOptions ==>
      r == Failure(UnknownLabel(ChestPainField, obs.chestPain))
    ensures obs.chestPain in ChestPainOptions && obs.restingEcg !in RestingEcgOptions ==>
      r == Failure(UnknownLabel(RestingEcgField, obs.restingEcg))
    ensures obs.chestPain in ChestPainOptions && obs.restingEcg in RestingEcgOptions && obs.stSlope !in StSlopeOptions ==>
      r == Failure(UnknownLabel(StSlopeField, obs.stSlope))
    ensures r.Success? ==> r.value.fastingBs in {0, 1}
    ensures r.Success? ==> (r.value.sex == "M" <==> obs.sex == "Male") && r.value.sex in {"M", "F"}
    ensures r.Success? ==> (r.value.exerciseAngina == "Y" <==> obs.exerciseAngina == "Yes")
    ensures r.Success? ==> r.value == CategoryCodes(
      SexCode(obs.sex), ChestPainCode(obs.chestPain).value, FastingBsCode(obs.fastingBs),
      RestingEcgCode(obs.restingEcg).value, ExerciseAnginaCode(obs.exerciseAngina), StSlopeCode(obs.stSlope).value)
  {
    var sex := SexCode(obs.sex);
    var chestPain :- ChestPainCode(obs.chestPain);
    var fastingBs := FastingBsCode(obs.fastingBs);
    var restingEcg :- RestingEcgCode(obs.restingEcg);
    var exerciseAngina := ExerciseAnginaCode(obs.exerciseAngina);
    var stSlope :- StSlopeCode(obs.stSlope);
    Success(CategoryCodes(sex, chestPain, fastingBs, restingEcg, exerciseAngina, stSlope))
  }

  /** Two keys whose fixed prefixes differ at some position differ, and
      neither prefix starts the other key. */
  lemma PrefixesDiffer(p: string, q: string, a: string, b: string, i: nat)
    requires i < |p| && i < |q| && p[i] != q[i]
    ensures p + a != q + b
    ensures !(p <= q + b) && !(q <= p + a)
  {
    assert (p + a)[i] == p[i];
    assert (q + b)[i] == q[i];
  }

  lemma PrefixOfConcat(p: string, a: string)
    ensures p <= p + a
    ensures forall b :: p + b == p + a ==> b == a
  {
    forall b | p + b == p + a
      ensures b == a
    {
      assert b == (p + b)[|p|..];
      assert a == (p + a)[|p|..];
    }
  }

  /** No key of `keys` starts with `prefix`. */
  ghost predicate NoneStartsWith(keys: set<string>, prefix: string) {
    forall k :: k in keys ==> !(prefix <= k)
  }

  /** No numeric column name starts with an indicator prefix. */
  lemma NumericColumnsUnprefixed()
    ensures NoneStartsWith(NumericColumns, SexPrefix)
    ensures NoneStartsWith(NumericColumns, ChestPainPrefix)
    ensures NoneStartsWith(NumericColumns, RestingEcgPrefix)
    ensures NoneStartsWith(NumericColumns, ExerciseAnginaPrefix)
    ensures NoneStartsWith(NumericColumns, StSlopePrefix)
  {
    forall k | k in NumericColumns
      ensures !(SexPrefix <= k) && !(ChestPainPrefix <= k) && !(RestingEcgPrefix <= k)
      ensures !(ExerciseAnginaPrefix <= k) && !(StSlopePrefix <= k)
    {
      assert k[0] in "ARCFMO";
      assert k == CholesterolColumn ==> k[2] == 'o';
    }
  }

  /** The five indicator keys are pairwise distinct whatever the codes are,
      and none carries another field's prefix. */
  lemma IndicatorKeysSeparate(c: CategoryCodes)
    ensures NoneStartsWith(IndicatorKeys(c) - {SexPrefix + c.sex}, SexPrefix)
    ensures NoneStartsWith(IndicatorKeys(c) - {ChestPainPrefix + c.chestPain}, ChestPainPrefix)
    ensures NoneStartsWith(IndicatorKeys(c) - {RestingEcgPrefix + c.restingEcg}, RestingEcgPrefix)
    ensures NoneStartsWith(IndicatorKeys(c) - {ExerciseAnginaPrefix + c.exerciseAngina}, ExerciseAnginaPrefix)
    ensures NoneStartsWith(IndicatorKeys(c) - {StSlopePrefix + c.stSlope}, StSlopePrefix)
    ensures |IndicatorKeys(c)| == 5
  {
    var s, cp, e, x, sl := c.sex, c.chestPain, c.restingEcg, c.exerciseAngina, c.stSlope;
    PrefixesDiffer(SexPrefix, ChestPainPrefix, s, cp, 0);
    PrefixesDiffer(SexPrefix, RestingEcgPrefix, s, e, 0);
    PrefixesDiffer(SexPrefix, ExerciseAnginaPrefix, s, x, 0);
    PrefixesDiffer(SexPrefix, StSlopePrefix, s, sl, 1);
    PrefixesDiffer(ChestPainPrefix, RestingEcgPrefix, cp, e, 0);
    PrefixesDiffer(ChestPainPrefix, ExerciseAnginaPrefix, cp, x, 0);
    PrefixesDiffer(ChestPainPrefix, StSlopePrefix, cp, sl, 0);
    PrefixesDiffer(RestingEcgPrefix, ExerciseAnginaPrefix, e, x, 0);
    PrefixesDiffer(RestingEcgPrefix, StSlopePrefix, e, sl, 0);
    PrefixesDiffer(ExerciseAnginaPrefix, StSlopePrefix, x, sl, 0);
  }

  /** No indicator key is a numeric column name. */
  lemma IndicatorKeysNotNumeric(c: CategoryCodes)
    ensures NumericColumns !! IndicatorKeys(c)
  {
    NumericColumnsUnprefixed();
    PrefixOfConcat(SexPrefix, c.sex);
    PrefixOfConcat(ChestPainPrefix, c.chestPain);
    PrefixOfConcat(RestingEcgPrefix, c.restingEcg);
    PrefixOfConcat(ExerciseAnginaPrefix, c.exerciseAngina);
    PrefixOfConcat(StSlopePrefix, c.stSlope);
  }

  /** The six numeric columns of the record. */
  function NumericPart(obs: Observation, fastingBs: int): Record {
    map[
      AgeColumn := Int(obs.age),
      RestingBpColumn := Int(obs.restingBp),
      CholesterolColumn := Int(obs.cholesterol),
      FastingBsColumn := Int(fastingBs),
      MaxHrColumn := Int(obs.maxHr),
      OldpeakColumn := Tenths(obs.oldpeak)]
  }

  /** The five indicator columns of the record. */
  function IndicatorPart(c: CategoryCodes): Record {
    map[
      SexPrefix + c.sex := Int(1),
      ChestPainPrefix + c.chestPain := Int(1),
      RestingEcgPrefix + c.restingEcg := Int(1),
      ExerciseAnginaPrefix + c.exerciseAngina := Int(1),
      StSlopePrefix + c.stSlope := Int(1)]
  }

  /** The record of app2.py:144-156: the six numeric columns and one
      indicator key per categorical field. Those keys are pairwise distinct
      (see `RawInputSize`), so the dictionary literal loses no entry. */
  function RawInput(obs: Observation, c: CategoryCodes): (r: Record)
    ensures r.Keys == NumericColumns + IndicatorKeys(c)
  {
    var numeric := NumericPart(obs, c.fastingBs);
    var indicators := IndicatorPart(c);
    assert numeric.Keys == NumericColumns;
    assert indicators.Keys == IndicatorKeys(c);
    numeric + indicators
  }

  lemma NumericColumnCount()
    ensures |NumericColumns| == 6
  {
  }

  /** A record whose keys are the numeric columns and the indicator keys
      has eleven entries. */
  lemma ElevenKeys(r: Record, c: CategoryCodes)
    requires r.Keys == NumericColumns + IndicatorKeys(c)
    ensures |r| == 11
  {
    NumericColumnCount();
    IndicatorKeysSeparate(c);
    IndicatorKeysNotNumeric(c);
    assert |r| == |r.Keys|;
    assert |NumericColumns + IndicatorKeys(c)| == |NumericColumns| + |IndicatorKeys(c)|;
  }

  /** The record's keys are pairwise distinct: it has exactly eleven. */
  lemma RawInputSize(obs: Observation, c: CategoryCodes)
    ensures |RawInput(obs, c)| == 11
  {
    ElevenKeys(RawInput(obs, c), c);
  }

  /** Every indicator key is in the record with value 1. */
  lemma IndicatorValues(obs: Observation, c: CategoryCodes)
    ensures forall k :: k in IndicatorKeys(c) ==> k in RawInput(obs, c) && RawInput(obs, c)[k] == Int(1)
  {
    var ind := IndicatorPart(c);
    assert ind.Keys == IndicatorKeys(c);
    assert forall k :: k in ind ==> ind[k] == Int(1);
  }

  /** In a record made of the numeric columns and some indicator keys, a
      field's indicator is one-hot as soon as no other key carries its
      prefix. */
  lemma OneHotByPrefix(r: Record, keys: set<string>, prefix: string, code: string)
    requires r.Keys == NumericColumns + keys
    requires prefix + code in keys && r[prefix + code] == Int(1)
    requires NoneStartsWith(NumericColumns, prefix)
    requires NoneStartsWith(keys - {prefix + code}, prefix)
    ensures OneHot(r, prefix, code)
  {
    forall k | k in r && prefix <= k
      ensures k == prefix + code
    {
      assert k !in NumericColumns;
      assert k == prefix + code || k in keys - {prefix + code};
    }
  }

  /** For every categorical field exactly one key carries the field's prefix;
      it ends in the field's code and holds 1. */
  lemma RawInputOneHot(obs: Observation, c: CategoryCodes)
    ensures OneHot(RawInput(obs, c), SexPrefix, c.sex)
    ensures OneHot(RawInput(obs, c), ChestPainPrefix, c.chestPain)
    ensures OneHot(RawInput(obs, c), RestingEcgPrefix, c.restingEcg)
    ensures OneHot(RawInput(obs, c), ExerciseAnginaPrefix, c.exerciseAngina)
    ensures OneHot(RawInput(obs, c), StSlopePrefix, c.stSlope)
  {
    var r := RawInput(obs, c);
    var keys := IndicatorKeys(c);
    IndicatorValues(obs, c);
    NumericColumnsUnprefixed();
    IndicatorKeysSeparate(c);
    OneHotByPrefix(r, keys, SexPrefix, c.sex);
    OneHotByPrefix(r, keys, ChestPainPrefix, c.chestPain);
    OneHotByPrefix(r, keys, RestingEcgPrefix, c.restingEcg);
    OneHotByPrefix(r, keys, ExerciseAnginaPrefix, c.exerciseAngina);
    OneHotByPrefix(r, keys, StSlopePrefix, c.stSlope);
  }

  /** The numeric answers reach the record unchanged under their own names,
      and `FastingBS` holds the 0/1 flag. */
  lemma RawInputPassThrough(obs: Observation, c: CategoryCodes)
    ensures RawInput(obs, c)[AgeColumn] == Int(obs.age)
    ensures RawInput(obs, c)[RestingBpColumn] == Int(obs.restingBp)
    ensures RawInput(obs, c)[CholesterolColumn] == Int(obs.cholesterol)
    ensures RawInput(obs, c)[FastingBsColumn] == Int(c.fastingBs)
    ensures RawInput(obs, c)[MaxHrColumn] == Int(obs.maxHr)
    ensures RawInput(obs, c)[OldpeakColumn] == Tenths(obs.oldpeak)
  {
    IndicatorKeysNotNumeric(c);
  }

  /** A field's code can be read back from a one-hot record. */
  lemma OneHotCodeUnique(r: Record, prefix: string, a: string, b: string)
    requires OneHot(r, prefix, a) && OneHot(r, prefix, b)
    ensures a == b
  {
    PrefixOfConcat(prefix, a);
  }

  /** The record loses nothing the classifier could use: equal records come
      from equal numeric answers and equal codes. */
  lemma RawInputDeterminesInputs(o1: Observation, c1: CategoryCodes, o2: Observation, c2: CategoryCodes)
    requires RawInput(o1, c1) == RawInput(o2, c2)
    ensures c1 == c2
    ensures o1.age == o2.age && o1.restingBp == o2.restingBp && o1.cholesterol == o2.cholesterol
    ensures o1.maxHr == o2.maxHr && o1.oldpeak == o2.oldpeak
  {
    var r := RawInput(o1, c1);
    RawInputOneHot(o1, c1);
    RawInputOneHot(o2, c2);
    RawInputPassThrough(o1, c1);
    RawInputPassThrough(o2, c2);
    OneHotCodeUnique(r, SexPrefix, c1.sex, c2.sex);
    OneHotCodeUnique(r, ChestPainPrefix, c1.chestPain, c2.chestPain);
    OneHotCodeUnique(r, RestingEcgPrefix, c1.restingEcg, c2.restingEcg);
    OneHotCodeUnique(r, ExerciseAnginaPrefix, c1.exerciseAngina, c2.exerciseAngina);
    OneHotCodeUnique(r, StSlopePrefix, c1.stSlope, c2.stSlope);
  }

  /** The whole encoder: category codes, then the record. It fails exactly
      on an unknown chest pain, resting ECG or ST slope label, with the error
      of the first failing lookup. */
  function Encode(obs: Observation): (r: Result<Record, EncodeError>)
    ensures r.Success? <==>
      obs.chestPain in ChestPainOptions && obs.restingEcg in RestingEcgOptions && obs.stSlope in StSlopeOptions
    ensures r.Failure? ==> r.error == EncodeCategories(obs).error
    ensures r.Success? ==> r.value.Keys == NumericColumns + IndicatorKeys(EncodeCategories(obs).value)
  {
    var codes :- EncodeCategories(obs);
    Success(RawInput(obs, codes))
  }

  /** On known labels the encoder yields eleven keys, one-hot indicators
      carrying the codes of the answers, and the numbers unchanged. */
  lemma EncodeShape(obs: Observation)
    requires obs.chestPain in ChestPainOptions && obs.restingEcg in RestingEcgOptions && obs.stSlope in StSlopeOptions
    ensures Encode(obs).Success?
    ensures var r := Encode(obs).value;
      && |r| == 11
      && OneHot(r, SexPrefix, SexCode(obs.sex))
      && OneHot(r, ChestPainPrefix, ChestPainCode(obs.chestPain).value)
      && OneHot(r, RestingEcgPrefix, RestingEcgCode(obs.restingEcg).value)
      && OneHot(r, ExerciseAnginaPrefix, ExerciseAnginaCode(obs.exerciseAngina))
      && OneHot(r, StSlopePrefix, StSlopeCode(obs.stSlope).value)
      && r[AgeColumn] == Int(obs.age) && r[RestingBpColumn] == Int(obs.restingBp)
      && r[CholesterolColumn] == Int(obs.cholesterol) && r[MaxHrColumn] == Int(obs.maxHr)
      && r[OldpeakColumn] == Tenths(obs.oldpeak)
      && (r[FastingBsColumn] == Int(1) <==> obs.fastingBs == "Yes")
      && (r[FastingBsColumn] == Int(0) <==> obs.fastingBs != "Yes")
  {
    var codes := EncodeCategories(obs).value;
    RawInputSize(obs, codes);
    RawInputOneHot(obs, codes);
    RawInputPassThrough(obs, codes);
  }
}
