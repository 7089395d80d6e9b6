/**
 * The input form of `main`: seven number inputs with inclusive limits and
 * five selectboxes. Together they decide which requests reach the encoder.
 */
module PredictionForm {
  import opened Wrappers
  import opened Categories
  import opened Prediction
  import opened LabelTable

  /** A number input: the value it starts with and the inclusive limits it enforces. */
  datatype NumberInput = NumberInput(initial: real, minValue: real, maxValue: real)

  predicate Accepts(w: NumberInput, x: real)
  {
    w.minValue <= x <= w.maxValue
  }

  const UraniumLeadRatioInput := NumberInput(0.0, 0.0, 1.32)
  const Carbon14RatioInput := NumberInput(0.0, 0.0, 1.0)
  const RadioactiveDecaySeriesInput := NumberInput(0.0, 0.0, 1.53)
  const StratigraphicLayerDepthInput := NumberInput(1.20, 1.20, 525.0)
  const IsotopicCompositionInput := NumberInput(0.0, 0.0, 3.15)
  const FossilSizeInput := NumberInput(1.36, 1.36, 177.0)
  const FossilWeightInput := NumberInput(0.05, 0.05, 1000.0)

  // The options of each selectbox, in the order they are shown; the first is preselected.
  const PeriodChoices: seq<string> :=
    ["Triassic", "Ordovician", "Jurassic", "Neogene", "Permian", "Cambrian",
     "Devonian", "Silurian", "Cretaceous", "Paleogene", "Carboniferous"]
  const PolarityChoices: seq<string> := ["Normal polarity", "Reversed polarity"]
  const InclusionChoices: seq<string> := ["Yes", "No"]
  const RockChoices: seq<string> := ["Sandstone", "Limestone", "Shale", "Conglomerate"]
  const PositionChoices: seq<string> := ["Middle", "Top", "Bottom"]

  /** Every numeric field lies within its input's inclusive limits. */
  predicate NumericValid(req: Request)
  {
    && Accepts(UraniumLeadRatioInput, req.uraniumLeadRatio)
    && Accepts(Carbon14RatioInput, req.carbon14Ratio)
    && Accepts(RadioactiveDecaySeriesInput, req.radioactiveDecaySeries)
    && Accepts(StratigraphicLayerDepthInput, req.stratigraphicLayerDepth)
    && Accepts(IsotopicCompositionInput, req.isotopicComposition)
    && Accepts(FossilSizeInput, req.fossilSize)
    && Accepts(FossilWeightInput, req.fossilWeight)
  }

  /** Every categorical field is one of its selectbox's options. */
  predicate Offered(req: Request)
  {
    && req.geologicalPeriod in PeriodChoices
    && req.paleomagneticData in PolarityChoices
    && req.inclusionOfOtherFossils in InclusionChoices
    && req.surroundingRockType in RockChoices
    && req.stratigraphicPosition in PositionChoices
  }

  /** A request the form can submit. */
  predicate Valid(req: Request)
  {
    NumericValid(req) && Offered(req)
  }

  /** What the form submits when no widget is touched. */
  const DefaultRequest: Request :=
    Request(UraniumLeadRatioInput.initial, Carbon14RatioInput.initial,
            RadioactiveDecaySeriesInput.initial, StratigraphicLayerDepthInput.initial,
            PeriodChoices[0], PolarityChoices[0], InclusionChoices[0],
            IsotopicCompositionInput.initial, RockChoices[0], PositionChoices[0],
            FossilSizeInput.initial, FossilWeightInput.initial)

  /**
   * Each selectbox offers exactly the keys of the dictionary its value is
   * looked up in: every option encodes, and every encodable label is offered.
   */
  lemma ChoicesAreKeys(s: string)
    ensures s in PeriodChoices <==> EncodePeriod(s).Some?
    ensures s in PolarityChoices <==> EncodePolarity(s).Some?
    ensures s in InclusionChoices <==> EncodeInclusion(s).Some?
    ensures s in RockChoices <==> EncodeRock(s).Some?
    ensures s in PositionChoices <==> EncodePosition(s).Some?
  {
    ListedKeys(PeriodTable, PeriodChoices, s);
    ListedKeys(PolarityTable, PolarityChoices, s);
    ListedKeys(InclusionTable, InclusionChoices, s);
    ListedKeys(RockTable, RockChoices, s);
    ListedKeys(PositionTable, PositionChoices, s);
  }

  /**
   * Encoding succeeds exactly on requests whose labels the selectboxes
   * offer; in particular every request the form can submit encodes.
   */
  lemma EncodesIffOffered(req: Request)
    ensures EncodeRequest(req).Success? <==> Offered(req)
  {
    ChoicesAreKeys(req.geologicalPeriod);
    ChoicesAreKeys(req.paleomagneticData);
    ChoicesAreKeys(req.inclusionOfOtherFossils);
    ChoicesAreKeys(req.surroundingRockType);
    ChoicesAreKeys(req.stratigraphicPosition);
  }

  /** The untouched form is a valid request: every number input starts at its minimum. */
  lemma DefaultIsValid()
    ensures && UraniumLeadRatioInput.initial == UraniumLeadRatioInput.minValue
            && Carbon14RatioInput.initial == Carbon14RatioInput.minValue
            && RadioactiveDecaySeriesInput.initial == RadioactiveDecaySeriesInput.minValue
            && StratigraphicLayerDepthInput.initial == StratigraphicLayerDepthInput.minValue
            && IsotopicCompositionInput.initial == IsotopicCompositionInput.minValue
            && FossilSizeInput.initial == FossilSizeInput.minValue
            && FossilWeightInput.initial == FossilWeightInput.minValue
    ensures Valid(DefaultRequest)
    ensures EncodeRequest(DefaultRequest) ==
              Success([0.0, 0.0, 0.0, 1.20, 0.0, 0.0, 0.0, 0.0, 0.0, 0.0, 1.36, 0.05])
  {
    EncodeLabelled(DefaultRequest, Triassic, NormalPolarity, Yes, Sandstone, Middle);
  }

  /** Every number input at its maximum, with the last option of every selectbox. */
  const MaximaRequest: Request :=
    Request(UraniumLeadRatioInput.maxValue, Carbon14RatioInput.maxValue,
            RadioactiveDecaySeriesInput.maxValue, StratigraphicLayerDepthInput.maxValue,
            PeriodChoices[|PeriodChoices| - 1], PolarityChoices[|PolarityChoices| - 1],
            InclusionChoices[|InclusionChoices| - 1], IsotopicCompositionInput.maxValue,
            RockChoices[|RockChoices| - 1], PositionChoices[|PositionChoices| - 1],
            FossilSizeInput.maxValue, FossilWeightInput.maxValue)

  /** The form accepts every limit at its upper end, and this is the vector it yields. */
  lemma MaximaAreValid()
    ensures Valid(MaximaRequest)
    ensures EncodeRequest(MaximaRequest) ==
              Success([1.32, 1.0, 1.53, 525.0, 10.0, 1.0, 1.0, 3.15, 3.0, 2.0, 177.0, 1000.0])
  {
    EncodeLabelled(MaximaRequest, Carboniferous, ReversedPolarity, No, Conglomerate, Bottom);
  }

  /** A typical submission. */
  const SampleRequest: Request :=
    Request(0.5, 0.5, 0.5, 100.0, "Jurassic", "Normal polarity", "No", 1.0, "Shale", "Top", 50.0, 10.0)

  /** The sample is a valid request, and this is its feature vector. */
  lemma SampleEncoding()
    ensures Valid(SampleRequest)
    ensures EncodeRequest(SampleRequest) ==
              Success([0.5, 0.5, 0.5, 100.0, 2.0, 0.0, 1.0, 1.0, 2.0, 1.0, 50.0, 10.0])
  {
    EncodeLabelled(SampleRequest, Jurassic, NormalPolarity, No, Shale, Top);
  }

  /** The prediction for the sample is what the regressor answers for its vector. */
  lemma SamplePrediction(regressor: seq<real> -> real)
    requires regressor([0.5, 0.5, 0.5, 100.0, 2.0, 0.0, 1.0, 1.0, 2.0, 1.0, 50.0, 10.0]) == 70000000.3
    ensures MakePrediction(regressor, SampleRequest) == Success(70000000.3)
  {
    SampleEncoding();
  }
}
