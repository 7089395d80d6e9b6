/**
 * `make_prediction`: the twelve form values are turned into the feature
 * vector the regressor was trained on, and the regressor is applied to it.
 */
module Prediction {
  import opened Wrappers
  import opened Categories

  /**
   * The arguments of one call: seven numeric measurements and five
   * categorical labels, exactly as the form passes them.
   */
  datatype Request = Request(
    uraniumLeadRatio: real,
    carbon14Ratio: real,
    radioactiveDecaySeries: real,
    stratigraphicLayerDepth: real,
    geologicalPeriod: string,
    paleomagneticData: string,
    inclusionOfOtherFossils: string,
    isotopicComposition: real,
    surroundingRockType: string,
    stratigraphicPosition: string,
    fossilSize: real,
    fossilWeight: real)

  /** Every categorical field carries one of its enumeration's labels. */
  ghost predicate KnownLabels(req: Request)
  {
    && (exists g :: req.geologicalPeriod == PeriodLabel(g))
    && (exists m :: req.paleomagneticData == PolarityLabel(m))
    && (exists f :: req.inclusionOfOtherFossils == InclusionLabel(f))
    && (exists k :: req.surroundingRockType == RockLabel(k))
    && (exists p :: req.stratigraphicPosition == PositionLabel(p))
  }

  /**
   * `input_data`: the seven numeric fields and the five codes, in the order
   * the regressor was trained on.
   */
  function Features(req: Request, period: int, polarity: int, inclusion: int, rock: int, position: int): (v: seq<real>)
    ensures |v| == 12
    ensures && v[0] == req.uraniumLeadRatio && v[1] == req.carbon14Ratio
            && v[2] == req.radioactiveDecaySeries && v[3] == req.stratigraphicLayerDepth
            && v[7] == req.isotopicComposition && v[10] == req.fossilSize && v[11] == req.fossilWeight
    ensures && v[4] == period as real && v[5] == polarity as real && v[6] == inclusion as real
            && v[8] == rock as real && v[9] == position as real
  {
    [req.uraniumLeadRatio, req.carbon14Ratio, req.radioactiveDecaySeries,
     req.stratigraphicLayerDepth, period as real, polarity as real,
     inclusion as real, req.isotopicComposition, rock as real,
     position as real, req.fossilSize, req.fossilWeight]
  }

  /**
   * The feature vector of a request, or the label whose lookup raised
   * KeyError. The lookups run in the source's order (position,
   * paleomagnetic data, rock type, inclusion, period), so the error names
   * the first unknown label in that order. The integer codes become
   * floating-point entries of the vector.
   */
  function EncodeRequest(req: Request): (r: Result<seq<real>, string>)
    ensures r.Success? <==> KnownLabels(req)
    ensures r.Success? ==> |r.value| == 12
    ensures r.Success? ==>
              && r.value[0] == req.uraniumLeadRatio
              && r.value[1] == req.carbon14Ratio
              && r.value[2] == req.radioactiveDecaySeries
              && r.value[3] == req.stratigraphicLayerDepth
              && r.value[7] == req.isotopicComposition
              && r.value[10] == req.fossilSize
              && r.value[11] == req.fossilWeight
    ensures forall g :: req.geologicalPeriod == PeriodLabel(g) && r.Success? ==>
              r.value[4] == PeriodCode(g) as real
    ensures forall m :: req.paleomagneticData == PolarityLabel(m) && r.Success? ==>
              r.value[5] == PolarityCode(m) as real
    ensures forall f :: req.inclusionOfOtherFossils == InclusionLabel(f) && r.Success? ==>
              r.value[6] == InclusionCode(f) as real
    ensures forall k :: req.surroundingRockType == RockLabel(k) && r.Success? ==>
              r.value[8] == RockCode(k) as real
    ensures forall p :: req.stratigraphicPosition == PositionLabel(p) && r.Success? ==>
              r.value[9] == PositionCode(p) as real
    ensures r.Failure? ==>
              r.error in [req.stratigraphicPosition, req.paleomagneticData, req.surroundingRockType,
                          req.inclusionOfOtherFossils, req.geologicalPeriod]
  {
    var position := EncodePosition(req.stratigraphicPosition);
    if position.None? then Failure(req.stratigraphicPosition) else
    var polarity := EncodePolarity(req.paleomagneticData);
    if polarity.None? then Failure(req.paleomagneticData) else
    var rock := EncodeRock(req.surroundingRockType);
    if rock.None? then Failure(req.surroundingRockType) else
    var inclusion := EncodeInclusion(req.inclusionOfOtherFossils);
    if inclusion.None? then Failure(req.inclusionOfOtherFossils) else
    var period := EncodePeriod(req.geologicalPeriod);
    if period.None? then Failure(req.geologicalPeriod) else
    Success(Features(req, period.value, polarity.value, inclusion.value, rock.value, position.value))
  }

  /**
   * Given the labels' enumeration values, the encoded vector is the twelve
   * fields in the trained order, each categorical field replaced by its code.
   */
  lemma EncodeLabelled(req: Request, g: GeologicalPeriod, m: PaleomagneticData,
                       f: FossilInclusion, k: RockType, p: StratigraphicPosition)
    requires req.geologicalPeriod == PeriodLabel(g)
    requires req.paleomagneticData == PolarityLabel(m)
    requires req.inclusionOfOtherFossils == InclusionLabel(f)
    requires req.surroundingRockType == RockLabel(k)
    requires req.stratigraphicPosition == PositionLabel(p)
    ensures EncodeRequest(req) ==
      Success([req.uraniumLeadRatio, req.carbon14Ratio, req.radioactiveDecaySeries,
               req.stratigraphicLayerDepth, PeriodCode(g) as real, PolarityCode(m) as real,
               InclusionCode(f) as real, req.isotopicComposition, RockCode(k) as real,
               PositionCode(p) as real, req.fossilSize, req.fossilWeight])
  {
    var r := EncodeRequest(req);
    assert r.Success?;
  }

  /**
   * The first unknown label in lookup order is the one reported: labels of
   * fields looked up earlier are known, and the reported one is not.
   */
  lemma EncodeFailureOrder(req: Request)
    ensures !(exists p :: req.stratigraphicPosition == PositionLabel(p)) ==>
              EncodeRequest(req) == Failure(req.stratigraphicPosition)
    ensures (exists p :: req.stratigraphicPosition == PositionLabel(p)) &&
            !(exists m :: req.paleomagneticData == PolarityLabel(m)) ==>
              EncodeRequest(req) == Failure(req.paleomagneticData)
    ensures (exists p :: req.stratigraphicPosition == PositionLabel(p)) &&
            (exists m :: req.paleomagneticData == PolarityLabel(m)) &&
            !(exists k :: req.surroundingRockType == RockLabel(k)) ==>
              EncodeRequest(req) == Failure(req.surroundingRockType)
    ensures (exists p :: req.stratigraphicPosition == PositionLabel(p)) &&
            (exists m :: req.paleomagneticData == PolarityLabel(m)) &&
            (exists k :: req.surroundingRockType == RockLabel(k)) &&
            !(exists f :: req.inclusionOfOtherFossils == InclusionLabel(f)) ==>
              EncodeRequest(req) == Failure(req.inclusionOfOtherFossils)
    ensures (exists p :: req.stratigraphicPosition == PositionLabel(p)) &&
            (exists m :: req.paleomagneticData == PolarityLabel(m)) &&
            (exists k :: req.surroundingRockType == RockLabel(k)) &&
            (exists f :: req.inclusionOfOtherFossils == InclusionLabel(f)) &&
            !(exists g :: req.geologicalPeriod == PeriodLabel(g)) ==>
              EncodeRequest(req) == Failure(req.geologicalPeriod)
  {
  }

  /**
   * One prediction: the regressor, loaded once and never changed, is a pure
   * function of the feature vector. A request whose encoding raises yields
   * no prediction.
   */
  function MakePrediction(regressor: seq<real> -> real, req: Request): (r: Result<real, string>)
    ensures r.Success? <==> KnownLabels(req)
    ensures r.Failure? ==> EncodeRequest(req) == Failure(r.error)
    ensures r.Success? ==> r.value == regressor(EncodeRequest(req).value)
  {
    match EncodeRequest(req)
    case Success(features) => Success(regressor(features))
    case Failure(missing) => Failure(missing)
  }

  /**
   * The prediction depends on the request only through its feature vector:
   * two requests that encode alike get the same prediction.
   */
  lemma PredictionThroughFeatures(regressor: seq<real> -> real, a: Request, b: Request)
    requires EncodeRequest(a) == EncodeRequest(b)
    ensures MakePrediction(regressor, a) == MakePrediction(regressor, b)
  {
  }
}
