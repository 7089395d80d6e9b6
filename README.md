# Fossil age prediction: the feature encoder

A model, in Dafny, of the part of the fossil-age prediction app that can be
stated exactly: `make_prediction` in `app.py`, which turns the twelve values
of the input form into the feature vector a pre-trained regressor expects,
and the form widgets in `main`, which decide which values can reach it.

- `wrappers.dfy` (`Wrappers`): `Option` and `Result`.
- `label_table.dfy` (`LabelTable`): a Python dictionary literal from labels
  to codes, kept as its list of entries, and the `d[key]` lookup on the
  dictionary it builds (a later duplicate entry wins; a missing key raises
  `KeyError`, modelled as `None`). Generic facts, each for a table with
  distinct keys: a lookup of a listed label yields its code; with codes
  `0..n-1` in order, the table is a bijection between its labels and those
  codes; when it lists every value of an enumeration, a lookup yields
  exactly that value's code and fails on any other string.
- `categories.dfy` (`Categories`): the five categorical fields —
  stratigraphic position, paleomagnetic data, surrounding rock type,
  inclusion of other fossils, geological period. Each has a datatype whose
  label and code functions are the reference definition, the dictionary
  literal of the source, and an `Encode*` function from strings to
  `Option<int>` whose contract ties the lookup to the datatype.
- `prediction.dfy` (`Prediction`): the request record (seven `real` fields
  and five label strings, in parameter order), `EncodeRequest`, which
  performs the five lookups in source order and assembles the 12-element
  vector, and `MakePrediction`, which applies a regressor given as a
  function value.
- `form.dfy` (`PredictionForm`): the seven number inputs with their initial
  values and inclusive limits, the five selectbox option lists, the
  `Valid` predicate, and the requests the form produces by default, at its
  maxima and in a sample submission.

An unknown label is a `KeyError` raised by the first failing lookup (in the
order position, paleomagnetic data, rock type, inclusion, period), so
`EncodeRequest` fails with that label; the model carries the label rather
than a generic "invalid category" error. The codes become floating-point entries because
`np.array` of floats and integers is a float array; the model writes
`code as real`.

## Model

| member | source | states |
|---|---|---|
| `LabelTable.Lookup` | app.py:32-36 | `d[k]` on a dict literal: fails exactly when no entry has key `k`; otherwise the result is the code of the last entry with key `k` |
| `LabelTable.LookupAt` | app.py:32-36 | with distinct keys, looking up the label of entry `i` gives exactly entry `i`'s code |
| `LabelTable.DenseLookup` | app.py:13-29 | a table with distinct keys and codes `0..n-1` in order: every found code is in `0..n-1`, distinct labels never share a code, and each code in range is found for its label |
| `LabelTable.EnumeratedLookup` | app.py:13-29 | a table listing every value of an enumeration under its label and code: a string that labels a value looks up to that value's code, and the lookup succeeds exactly when the string labels some value |
| `LabelTable.ListedKeys` | app.py:58-63 | a list holding a table's labels in order contains a string exactly when looking it up succeeds |
| `Categories.PositionTableEnumerates` | app.py:13 | `stratigraphic_position_mapping` has distinct keys, codes 0..2 in order, and lists Middle, Top, Bottom under their labels and codes |
| `Categories.EncodePosition` | app.py:32 | a position label maps to its code; any other string fails |
| `Categories.PositionCodesDense` | app.py:13 | position codes lie in 0..2, are distinct for distinct labels, and every code in 0..2 is some label's |
| `Categories.PositionTableExact` | app.py:13 | Middle→0, Top→1, Bottom→2 |
| `Categories.PolarityTableEnumerates` | app.py:14 | `paleomagnetic_data_mapping` has distinct keys, codes 0..1 in order, and lists both polarities |
| `Categories.EncodePolarity` | app.py:33 | a polarity label maps to its code; any other string fails |
| `Categories.PolarityCodesDense` | app.py:14 | polarity codes lie in 0..1, are distinct, and both are used |
| `Categories.PolarityTableExact` | app.py:14 | Normal polarity→0, Reversed polarity→1 |
| `Categories.RockTableEnumerates` | app.py:15 | `surrounding_rock_type_mapping` has distinct keys, codes 0..3 in order, and lists all four rock types |
| `Categories.EncodeRock` | app.py:34 | a rock-type label maps to its code; any other string fails |
| `Categories.RockCodesDense` | app.py:15 | rock codes lie in 0..3, are distinct, and every code in 0..3 is used |
| `Categories.RockTableExact` | app.py:15 | Sandstone→0, Limestone→1, Shale→2, Conglomerate→3 |
| `Categories.InclusionTableEnumerates` | app.py:16 | `inclusion_of_other_fossils_mapping` has distinct keys, codes 0..1 in order, and lists Yes and No |
| `Categories.EncodeInclusion` | app.py:35 | Yes/No map to their codes; any other string fails |
| `Categories.InclusionCodesDense` | app.py:16 | inclusion codes lie in 0..1, are distinct, and both are used |
| `Categories.InclusionTableExact` | app.py:16 | Yes→0, No→1 |
| `Categories.PeriodTableEnumerates` | app.py:17-29 | `geological_period_mapping` has distinct keys, codes 0..10 in order, and lists all eleven periods |
| `Categories.EncodePeriod` | app.py:36 | a period label maps to its code; any other string fails |
| `Categories.PeriodCodesDense` | app.py:17-29 | period codes lie in 0..10, are distinct for distinct labels, and every code in 0..10 is some period's |
| `Categories.PeriodTableExact` | app.py:17-29 | Triassic→0, Ordovician→1, Jurassic→2, …, Paleogene→9, Carboniferous→10 |
| `Categories.UnknownLabelsFail` | app.py:32-36 | labels are matched exactly (case, spacing): near-miss strings get no code, there is no default |
| `Prediction.Features` | app.py:38-40 | `input_data`: 12 entries, the seven numeric fields at positions 0-3, 7, 10, 11 and the five codes at 4, 5, 6, 8, 9 |
| `Prediction.EncodeRequest` | app.py:10-40 | succeeds exactly when all five labels are known; the vector has length 12, positions 0-3, 7, 10, 11 are the numeric inputs unchanged, positions 4, 5, 6, 8, 9 are the codes of period, paleomagnetic data, inclusion, rock type and position; a failure names one of the five labels |
| `Prediction.EncodeLabelled` | app.py:32-40 | for labels of given enumeration values the vector is exactly the twelve fields in trained order with each label replaced by its reference code |
| `Prediction.EncodeFailureOrder` | app.py:32-36 | the reported label is the first unknown one in lookup order: position, paleomagnetic data, rock type, inclusion, period |
| `Prediction.MakePrediction` | app.py:43-44 | fails exactly when encoding fails, with the same label; otherwise it is the regressor applied to the encoded vector |
| `Prediction.PredictionThroughFeatures` | app.py:43 | two requests with the same encoding get the same prediction |
| `PredictionForm.ChoicesAreKeys` | app.py:58-63 | each selectbox offers exactly the keys of its mapping: an option always encodes and every encodable label is offered |
| `PredictionForm.EncodesIffOffered` | app.py:58-63 | encoding succeeds exactly when every categorical field is one of its selectbox's options, so every form submission encodes |
| `PredictionForm.DefaultIsValid` | app.py:54-65 | every number input's initial value equals its minimum; the untouched form (numbers at their initial values, first options) is valid and encodes to `[0,0,0,1.20,0,0,0,0,0,0,1.36,0.05]` |
| `PredictionForm.MaximaAreValid` | app.py:54-65 | the request with every number at its input's maximum and every selectbox at its last option is valid and encodes to `[1.32,1,1.53,525,10,1,1,3.15,3,2,177,1000]` |
| `PredictionForm.SampleEncoding` | app.py:38-40 | the sample (Jurassic, Normal polarity, No, Shale, Top) is valid and encodes to `[0.5,0.5,0.5,100,2,0,1,1,2,1,50,10]` |
| `PredictionForm.SamplePrediction` | app.py:43 | a regressor answering 70000000.3 on the sample's vector gives the prediction 70000000.3 |

## Left out

- Loading the regressor with `pickle` at start-up (app.py:7-8): file I/O and foreign deserialisation. A failed load is not modelled.
- The regressor itself (app.py:43): an externally trained model; `MakePrediction` takes it as a function `seq<real> -> real`, which makes it deterministic and nothing more. The batch call `predict([input_data])` and its one-element result array are collapsed to one vector in, one number out.
- Display rounding `int(round(prediction[0]))` and the success message (app.py:76): Python rounding of binary floating point.
- Floating point in general: numeric fields are exact `real`s, so the bounds are compared as exact decimals rather than as the nearest binary doubles; values pass through unchanged, so no arithmetic is affected.
- All Streamlit page, form and message rendering (app.py:47-76), including the number inputs' step and display format, and the unused `plotly` import (app.py:4).
