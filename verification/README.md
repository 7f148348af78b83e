# Heart Health Guardian: feature encoder and schema aligner

This project models the feature encoder of the heart-disease prediction
form in `app2.py`. The form collects eleven health answers. The encoder
turns them into one flat record. It then aligns that record with the
ordered column list the classifier was trained on.

- **Label-to-code mapping.** Chest pain, resting ECG and ST slope labels go
  through fixed dictionaries. A label that is not a key fails like a Python
  `KeyError`. Sex, fasting blood sugar and exercise angina go through a
  two-way test: `"Male"` gives `M` and anything else `F`; `"Yes"` gives `1`
  and anything else `0`; `"Yes"` gives `Y` and anything else `N`.
- **Record construction.** The record holds six numeric columns (`Age`,
  `RestingBP`, `Cholesterol`, `FastingBS`, `MaxHR`, `Oldpeak`). It also
  holds one indicator column `Prefix_Code` with value 1 for each of the five
  categorical fields.
- **Alignment.** Every column of the schema that the record lacks is added
  with value 0. The columns are then selected in schema order, which drops
  every record key the schema does not name.

Modules:

- `Wrappers` (`wrappers.dfy`): the `Result` type that carries the `KeyError`
  path.
- `Form` (`form.dfy`): the select-box choices as enums, their display labels
  and option lists, and the observation the encoder receives.
- `Codes` (`codes.dfy`): the three dictionaries and the three two-way tests.
- `Encoding` (`encoding.dfy`): the record and the structure of its keys.
- `Alignment` (`alignment.dfy`): reindex with zero fill. `Reindex` is the
  pointwise reference. `FillMissing` followed by `Select` is the
  fill-then-select code as written, and `Align` proves the two agree.
- `Pipeline` (`pipeline.dfy`): encoding followed by alignment, the per-field
  one-hot facts after alignment, a worked scenario, and the two-way verdict.

A cell value is `Int(n)` or `Tenths(t)`. The ST depression ("Oldpeak") is a
slider value with one decimal digit, so it is kept as a count of tenths
(1.0 is `Tenths(10)`). It is only passed through. The schema is any
sequence of column names, because the real list is loaded from a file at
startup.

Behaviour of `app2.py` worth knowing:

- Only the three dictionary lookups can fail (app2.py:126, 133, 140). The
  two-way tests accept any label: every label other than `"Male"` / `"Yes"`
  gives `F`, `0` and `N`.
- Exercise angina becomes an indicator column, `ExerciseAngina_Y` or
  `ExerciseAngina_N`, not a 0/1 number. Only fasting blood sugar is a 0/1
  number.
- The dictionary lookups run in source order: chest pain, then resting ECG,
  then ST slope. The first unknown label among them is the one reported.

## Model

| member | source | states |
|---|---|---|
| Form.LabelsAreOptions | app2.py:90-115 | each select box's options are exactly the labels of its choices, and no two choices share a label |
| Form.Submit | app2.py:88-115 | a submission through the widgets hands the encoder, for each select box, the display label of the chosen option (so always one of the offered options) and the numbers unchanged |
| Codes.ChestPainCode | app2.py:120-126 | the chest pain lookup succeeds exactly on the four offered options, pairing Asymptomatic/ASY, Atypical Angina/ATA, Non-Anginal Pain/NAP and Typical Angina/TA; any other label fails as a missing key naming that label |
| Codes.RestingEcgCode | app2.py:128-133 | the resting ECG lookup succeeds exactly on the three offered options, pairing Normal/Normal, ST-T Wave Abnormality/ST and Left Ventricular Hypertrophy/LVH; any other label fails naming it |
| Codes.StSlopeCode | app2.py:135-140 | the ST slope lookup succeeds exactly on the three offered options, pairing Upsloping/Up, Flat/Flat and Downsloping/Down; any other label fails naming it |
| Codes.TablesAreOneToOne | app2.py:120-140 | each dictionary's keys are exactly its select box's options and no two options share a code |
| Codes.ChestPainTableOneToOne | app2.py:91-125 | the chest pain dictionary's keys are exactly the select box's four options and its codes are pairwise distinct |
| Codes.RestingEcgTableOneToOne | app2.py:103-132 | the resting ECG dictionary's keys are exactly the three options and its codes are pairwise distinct |
| Codes.StSlopeTableOneToOne | app2.py:113-139 | the ST slope dictionary's keys are exactly the three options and its codes are pairwise distinct |
| Codes.SexCode | app2.py:119 | total: "Male" gives M, every other label gives F |
| Codes.FastingBsCode | app2.py:127 | total: "Yes" gives 1, every other label gives 0, so the flag is always 0 or 1 |
| Codes.ExerciseAnginaCode | app2.py:134 | total: "Yes" gives Y, every other label gives N |
| Codes.ChoiceCodesInjective | app2.py:119-140 | distinct offered choices of a field get distinct codes, in all six categorical fields |
| Encoding.EncodeCategories | app2.py:119-140 | fails exactly when a chest pain, resting ECG or ST slope label is unknown, reporting the first unknown one in source order; on success the codes are exactly the three dictionary codes of the labels and the three two-way results (sex M or F, flag 0 or 1, angina Y or N) |
| Encoding.NumericColumnsUnprefixed | app2.py:144-150 | no numeric column name starts with an indicator prefix |
| Encoding.IndicatorKeysSeparate | app2.py:151-155 | for any codes the five indicator keys are distinct and none carries another field's prefix |
| Encoding.IndicatorKeysNotNumeric | app2.py:144-155 | no indicator key collides with a numeric column name |
| Encoding.RawInput | app2.py:144-156 | the record's keys are the six numeric columns and one indicator key per categorical field |
| Encoding.RawInputSize | app2.py:144-156 | those keys are pairwise distinct for any codes, so the record has exactly 11 entries |
| Encoding.RawInputOneHot | app2.py:151-155 | for each categorical field exactly one key has the field's prefix; its suffix is the field's code and its value is 1 |
| Encoding.RawInputPassThrough | app2.py:145-150 | the numeric answers appear unchanged under their own names and FastingBS holds the flag |
| Encoding.RawInputDeterminesInputs | app2.py:144-156 | two equal records come from equal numeric answers and equal codes, so the record loses no information |
| Encoding.Encode | app2.py:119-156 | the encoder fails exactly on an unknown chest pain, resting ECG or ST slope label, with the first failing lookup's error; on success the record has the numeric columns and the indicator keys of the codes |
| Encoding.EncodeShape | app2.py:119-156 | on known labels the record has 11 keys, is one-hot in each field on the answer's code, passes numbers through, and FastingBS is 1 exactly for "Yes" and 0 otherwise |
| Alignment.Reindex | app2.py:160-164 | the aligned row has the schema's length, and position i holds the record's value for column i or 0 when the record lacks it |
| Alignment.FillMissing | app2.py:160-162 | the fill loop adds every missing schema column with value 0 and keeps every existing column and its value |
| Alignment.Select | app2.py:164 | selecting the schema columns of a frame that has them all yields one cell per schema column, in schema order |
| Alignment.Align | app2.py:160-164 | fill followed by column selection yields exactly the reindexed row |
| Alignment.RowRecord | app2.py:164 | the aligned frame, keyed by distinct schema names, has exactly the schema's columns with the row's values |
| Alignment.AlignedRecordColumns | app2.py:160-164 | after alignment, record keys outside the schema are gone, present columns keep their value and missing ones are 0 |
| Alignment.ReindexIgnoresOtherKeys | app2.py:164 | the row depends only on the record's values for schema columns, so extra keys have no effect |
| Alignment.ReindexIdempotent | app2.py:160-164 | aligning an already aligned record against the same schema returns it unchanged |
| Pipeline.EncodeRow | app2.py:119-164 | the row reaches the scaler exactly when every dictionary label is known, otherwise the first lookup error is reported; the row has the schema's length, and every schema column named Age, RestingBP, Cholesterol, FastingBS, MaxHR or Oldpeak holds that answer (FastingBS as its 0/1 flag); on success the row is exactly the encoded record reindexed against the schema |
| Pipeline.EncodeRowIndicators | app2.py:151-164 | every schema column that is one of the record's five indicator keys holds 1 in the row |
| Pipeline.EncodeRowZeroFill | app2.py:160-164 | every schema column the encoded record lacks holds 0 in the row |
| Pipeline.ChestPainColumns | app2.py:120-152 | the four chest pain choices select the columns ChestPainType_ASY, _ATA, _NAP and _TA |
| Pipeline.RestingEcgColumns | app2.py:128-153 | the three resting ECG choices select RestingECG_Normal, _ST and _LVH |
| Pipeline.StSlopeColumns | app2.py:135-155 | the three ST slope choices select ST_Slope_Up, _Flat and _Down |
| Pipeline.TwoWayColumns | app2.py:119-154 | male and female select Sex_M and Sex_F; yes and no to exercise angina select ExerciseAngina_Y and ExerciseAngina_N |
| Pipeline.SubmittedRecord | app2.py:88-156 | every submission through the widgets encodes without error |
| Pipeline.SubmittedOneHot | app2.py:144-156 | a submission's record is one-hot in each field on the code of the chosen option |
| Pipeline.AnswersOneHot | app2.py:119-156 | for each field, the chosen option's indicator column is present with value 1 and every sibling option's column is absent |
| Pipeline.AlignedSibling | app2.py:151-164 | after alignment, a schema column with a field's prefix is 1 exactly when its suffix is the chosen code, else 0 |
| Pipeline.AlignedChestPain | app2.py:119-164 | after alignment, each chest pain indicator column in the schema is 1 for the chosen option and 0 for the other three |
| Pipeline.AlignedRestingEcg | app2.py:119-164 | after alignment, each resting ECG indicator column in the schema is 1 for the chosen option and 0 for the others |
| Pipeline.AlignedStSlope | app2.py:119-164 | after alignment, each ST slope indicator column in the schema is 1 for the chosen option and 0 for the others |
| Pipeline.AlignedSex | app2.py:119-164 | after alignment, Sex_M / Sex_F in the schema is 1 for the chosen sex and 0 for the other |
| Pipeline.AlignedExerciseAngina | app2.py:119-164 | after alignment, ExerciseAngina_Y / ExerciseAngina_N in the schema is 1 for the chosen answer and 0 for the other |
| Pipeline.TypicalAnginaColumnIsZero | app2.py:160-162 | a schema's ChestPainType_TA column is 0 whenever the chest pain answer is not typical angina |
| Pipeline.ScenarioRecord | app2.py:144-156 | the worked example (age 40, male, asymptomatic, ...) gives exactly the expected eleven entries |
| Pipeline.VerdictOf | app2.py:172-188 | label 1 selects the high-risk result and every other label the low-risk one |

## Left out

- Page setup, styling, images, the about box, balloons, the result HTML,
  advice text and bar chart (app2.py:10-117, 169-220) are presentation only.
- The widget ranges (age 18-100, blood pressure 80-200, cholesterol 100-600,
  max heart rate 60-220, ST depression 0.0-6.0) are not modelled. The
  encoder passes numbers through unchanged whatever their value.
- Loading the classifier, the scaler and the column list from pickled files
  (app2.py:6-8) is file I/O. The column list becomes a parameter of the
  alignment.
- The scaler transform, the classifier's predict and predict-probability
  calls and the percentage (app2.py:165-167) are calls into a trained
  model whose behaviour is not in this repository. They also use floating
  point. The verdict therefore takes the predicted label as a parameter.
- The probability's one-decimal formatting (app2.py:176, 192) is
  presentation only.
- The encoder runs at module level on every rerun, before the submit check
  (app2.py:119-142). The model treats it as a function of the current
  answers. Rerun timing is a property of the UI framework.
- The pandas dtype of each column (int64 against float64) is not modelled.
  A cell is either an integer or a count of tenths.
- Alignment.AlignedRecordColumns, Alignment.RowRecord and
  Alignment.ReindexIdempotent: stated for schemas with distinct column
  names, because a record keyed by name cannot hold a duplicated column
  twice. Reindex and Align make no such assumption.
