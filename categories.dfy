/**
 * The five categorical fields of a prediction request. Each is an
 * enumeration whose label and integer code are given here once, as the
 * reference definition; beside it stands the dictionary literal the encoder
 * actually looks labels up in, and the encoding function over strings.
 */
module Categories {
  import opened Wrappers
  import opened LabelTable

  // ---------------------------------------------------------------------------
  // Stratigraphic position

  datatype StratigraphicPosition = Middle | Top | Bottom

  function PositionLabel(p: StratigraphicPosition): string
  {
    match p
    case Middle => "Middle"
    case Top => "Top"
    case Bottom => "Bottom"
  }

  function PositionCode(p: StratigraphicPosition): int
  {
    match p
    case Middle => 0
    case Top => 1
    case Bottom => 2
  }

  const AllPositions: seq<StratigraphicPosition> := [Middle, Top, Bottom]

  /** `stratigraphic_position_mapping` */
  const PositionTable: Table := [("Middle", 0), ("Top", 1), ("Bottom", 2)]

  lemma PositionTableEnumerates()
    ensures DistinctKeys(PositionTable) && Dense(PositionTable)
    ensures Enumerates(PositionTable, AllPositions, PositionLabel, PositionCode)
  {
    forall x: StratigraphicPosition ensures x in AllPositions {
      match x
      case Middle =>
      case Top =>
      case Bottom =>
    }
  }

  /** The lookup `stratigraphic_position_mapping[s]`; None where Python raises KeyError. */
  function EncodePosition(s: string): (r: Option<int>)
    ensures forall p :: s == PositionLabel(p) ==> r == Some(PositionCode(p))
    ensures r.Some? <==> exists p :: s == PositionLabel(p)
  {
    PositionTableEnumerates();
    EnumeratedLookup(PositionTable, AllPositions, PositionLabel, PositionCode, s);
    Lookup(PositionTable, s)
  }

  /** Codes lie in 0..2, distinct labels get distinct codes, and every code in 0..2 is used. */
  lemma PositionCodesDense(a: string, b: string, c: int)
    ensures EncodePosition(a).Some? ==> 0 <= EncodePosition(a).value < 3
    ensures EncodePosition(a).Some? && EncodePosition(a) == EncodePosition(b) ==> a == b
    ensures 0 <= c < 3 <==> exists s :: EncodePosition(s) == Some(c)
  {
    PositionTableEnumerates();
    DenseLookup(PositionTable, a, b, c);
    if 0 <= c < 3 {
      assert EncodePosition(PositionTable[c].0) == Some(c);
    }
    if exists s :: EncodePosition(s) == Some(c) {
      var s :| EncodePosition(s) == Some(c);
      DenseLookup(PositionTable, s, s, c);
    }
  }

  lemma PositionTableExact()
    ensures EncodePosition("Middle") == Some(0)
    ensures EncodePosition("Top") == Some(1)
    ensures EncodePosition("Bottom") == Some(2)
  {
    assert PositionLabel(Middle) == "Middle" && PositionLabel(Top) == "Top";
    assert PositionLabel(Bottom) == "Bottom";
  }

  // ---------------------------------------------------------------------------
  // Paleomagnetic data

  datatype PaleomagneticData = NormalPolarity | ReversedPolarity

  function PolarityLabel(m: PaleomagneticData): string
  {
    match m
    case NormalPolarity => "Normal polarity"
    case ReversedPolarity => "Reversed polarity"
  }

  function PolarityCode(m: PaleomagneticData): int
  {
    match m
    case NormalPolarity => 0
    case ReversedPolarity => 1
  }

  const AllPolarities: seq<PaleomagneticData> := [NormalPolarity, ReversedPolarity]

  /** `paleomagnetic_data_mapping` */
  const PolarityTable: Table := [("Normal polarity", 0), ("Reversed polarity", 1)]

  lemma PolarityTableEnumerates()
    ensures DistinctKeys(PolarityTable) && Dense(PolarityTable)
    ensures Enumerates(PolarityTable, AllPolarities, PolarityLabel, PolarityCode)
  {
    forall x: PaleomagneticData ensures x in AllPolarities {
      match x
      case NormalPolarity =>
      case ReversedPolarity =>
    }
  }

  /** The lookup `paleomagnetic_data_mapping[s]`; None where Python raises KeyError. */
  function EncodePolarity(s: string): (r: Option<int>)
    ensures forall m :: s == PolarityLabel(m) ==> r == Some(PolarityCode(m))
    ensures r.Some? <==> exists m :: s == PolarityLabel(m)
  {
    PolarityTableEnumerates();
    EnumeratedLookup(PolarityTable, AllPolarities, PolarityLabel, PolarityCode, s);
    Lookup(PolarityTable, s)
  }

  /** Codes lie in 0..1, distinct labels get distinct codes, and both codes are used. */
  lemma PolarityCodesDense(a: string, b: string, c: int)
    ensures EncodePolarity(a).Some? ==> 0 <= EncodePolarity(a).value < 2
    ensures EncodePolarity(a).Some? && EncodePolarity(a) == EncodePolarity(b) ==> a == b
    ensures 0 <= c < 2 <==> exists s :: EncodePolarity(s) == Some(c)
  {
    PolarityTableEnumerates();
    DenseLookup(PolarityTable, a, b, c);
    if 0 <= c < 2 {
      assert EncodePolarity(PolarityTable[c].0) == Some(c);
    }
    if exists s :: EncodePolarity(s) == Some(c) {
      var s :| EncodePolarity(s) == Some(c);
      DenseLookup(PolarityTable, s, s, c);
    }
  }

  lemma PolarityTableExact()
    ensures EncodePolarity("Normal polarity") == Some(0)
    ensures EncodePolarity("Reversed polarity") == Some(1)
  {
    assert PolarityLabel(NormalPolarity) == "Normal polarity";
    assert PolarityLabel(ReversedPolarity) == "Reversed polarity";
  }

  // ---------------------------------------------------------------------------
  // Surrounding rock type

  datatype RockType = Sandstone | Limestone | Shale | Conglomerate

  function RockLabel(k: RockType): string
  {
    match k
    case Sandstone => "Sandstone"
    case Limestone => "Limestone"
    case Shale => "Shale"
    case Conglomerate => "Conglomerate"
  }

  function RockCode(k: RockType): int
  {
    match k
    case Sandstone => 0
    case Limestone => 1
    case Shale => 2
    case Conglomerate => 3
  }

  const AllRocks: seq<RockType> := [Sandstone, Limestone, Shale, Conglomerate]

  /** `surrounding_rock_type_mapping` */
  const RockTable: Table := [("Sandstone", 0), ("Limestone", 1), ("Shale", 2), ("Conglomerate", 3)]

  lemma RockTableEnumerates()
    ensures DistinctKeys(RockTable) && Dense(RockTable)
    ensures Enumerates(RockTable, AllRocks, RockLabel, RockCode)
  {
    forall x: RockType ensures x in AllRocks {
      match x
      case Sandstone =>
      case Limestone =>
      case Shale =>
      case Conglomerate =>
    }
  }

  /** The lookup `surrounding_rock_type_mapping[s]`; None where Python raises KeyError. */
  function EncodeRock(s: string): (r: Option<int>)
    ensures forall k :: s == RockLabel(k) ==> r == Some(RockCode(k))
    ensures r.Some? <==> exists k :: s == RockLabel(k)
  {
    RockTableEnumerates();
    EnumeratedLookup(RockTable, AllRocks, RockLabel, RockCode, s);
    Lookup(RockTable, s)
  }

  /** Codes lie in 0..3, distinct labels get distinct codes, and every code in 0..3 is used. */
  lemma RockCodesDense(a: string, b: string, c: int)
    ensures EncodeRock(a).Some? ==> 0 <= EncodeRock(a).value < 4
    ensures EncodeRock(a).Some? && EncodeRock(a) == EncodeRock(b) ==> a == b
    ensures 0 <= c < 4 <==> exists s :: EncodeRock(s) == Some(c)
  {
    RockTableEnumerates();
    DenseLookup(RockTable, a, b, c);
    if 0 <= c < 4 {
      assert EncodeRock(RockTable[c].0) == Some(c);
    }
    if exists s :: EncodeRock(s) == Some(c) {
      var s :| EncodeRock(s) == Some(c);
      DenseLookup(RockTable, s, s, c);
    }
  }

  lemma RockTableExact()
    ensures EncodeRock("Sandstone") == Some(0)
    ensures EncodeRock("Limestone") == Some(1)
    ensures EncodeRock("Shale") == Some(2)
    ensures EncodeRock("Conglomerate") == Some(3)
  {
    assert RockLabel(Sandstone) == "Sandstone" && RockLabel(Limestone) == "Limestone";
    assert RockLabel(Shale) == "Shale" && RockLabel(Conglomerate) == "Conglomerate";
  }

  // ---------------------------------------------------------------------------
  // Inclusion of other fossils

  datatype FossilInclusion = Yes | No

  function InclusionLabel(f: FossilInclusion): string
  {
    match f
    case Yes => "Yes"
    case No => "No"
  }

  function InclusionCode(f: FossilInclusion): int
  {
    match f
    case Yes => 0
    case No => 1
  }

  const AllInclusions: seq<FossilInclusion> := [Yes, No]

  /** `inclusion_of_other_fossils_mapping` */
  const InclusionTable: Table := [("Yes", 0), ("No", 1)]

  lemma InclusionTableEnumerates()
    ensures DistinctKeys(InclusionTable) && Dense(InclusionTable)
    ensures Enumerates(InclusionTable, AllInclusions, InclusionLabel, InclusionCode)
  {
    forall x: FossilInclusion ensures x in AllInclusions {
      match x
      case Yes =>
      case No =>
    }
  }

  /** The lookup `inclusion_of_other_fossils_mapping[s]`; None where Python raises KeyError. */
  function EncodeInclusion(s: string): (r: Option<int>)
    ensures forall f :: s == InclusionLabel(f) ==> r == Some(InclusionCode(f))
    ensures r.Some? <==> exists f :: s == InclusionLabel(f)
  {
    InclusionTableEnumerates();
    EnumeratedLookup(InclusionTable, AllInclusions, InclusionLabel, InclusionCode, s);
    Lookup(InclusionTable, s)
  }

  /** Codes lie in 0..1, distinct labels get distinct codes, and both codes are used. */
  lemma InclusionCodesDense(a: string, b: string, c: int)
    ensures EncodeInclusion(a).Some? ==> 0 <= EncodeInclusion(a).value < 2
    ensures EncodeInclusion(a).Some? && EncodeInclusion(a) == EncodeInclusion(b) ==> a == b
    ensures 0 <= c < 2 <==> exists s :: EncodeInclusion(s) == Some(c)
  {
    InclusionTableEnumerates();
    DenseLookup(InclusionTable, a, b, c);
    if 0 <= c < 2 {
      assert EncodeInclusion(InclusionTable[c].0) == Some(c);
    }
    if exists s :: EncodeInclusion(s) == Some(c) {
      var s :| EncodeInclusion(s) == Some(c);
      DenseLookup(InclusionTable, s, s, c);
    }
  }

  lemma InclusionTableExact()
    ensures EncodeInclusion("Yes") == Some(0)
    ensures EncodeInclusion("No") == Some(1)
  {
    assert InclusionLabel(Yes) == "Yes" && InclusionLabel(No) == "No";
  }

  // ---------------------------------------------------------------------------
  // Geological period

  datatype GeologicalPeriod =
    | Triassic | Ordovician | Jurassic | Neogene | Permian | Cambrian
    | Devonian | Silurian | Cretaceous | Paleogene | Carboniferous

  function PeriodLabel(g: GeologicalPeriod): string
  {
    match g
    case Triassic => "Triassic"
    case Ordovician => "Ordovician"
    case Jurassic => "Jurassic"
    case Neogene => "Neogene"
    case Permian => "Permian"
    case Cambrian => "Cambrian"
    case Devonian => "Devonian"
    case Silurian => "Silurian"
    case Cretaceous => "Cretaceous"
    case Paleogene => "Paleogene"
    case Carboniferous => "Carboniferous"
  }

  function PeriodCode(g: GeologicalPeriod): int
  {
    match g
    case Triassic => 0
    case Ordovician => 1
    case Jurassic => 2
    case Neogene => 3
    case Permian => 4
    case Cambrian => 5
    case Devonian => 6
    case Silurian => 7
    case Cretaceous => 8
    case Paleogene => 9
    case Carboniferous => 10
  }

  const AllPeriods: seq<GeologicalPeriod> :=
    [Triassic, Ordovician, Jurassic, Neogene, Permian, Cambrian,
     Devonian, Silurian, Cretaceous, Paleogene, Carboniferous]

  /** `geological_period_mapping` */
  const PeriodTable: Table :=
    [("Triassic", 0), ("Ordovician", 1), ("Jurassic", 2), ("Neogene", 3),
     ("Permian", 4), ("Cambrian", 5), ("Devonian", 6), ("Silurian", 7),
     ("Cretaceous", 8), ("Paleogene", 9), ("Carboniferous", 10)]

  lemma PeriodTableEnumerates()
    ensures DistinctKeys(PeriodTable) && Dense(PeriodTable)
    ensures Enumerates(PeriodTable, AllPeriods, PeriodLabel, PeriodCode)
  {
    forall x: GeologicalPeriod ensures x in AllPeriods {
      match x
      case Triassic =>
      case Ordovician =>
      case Jurassic =>
      case Neogene =>
      case Permian =>
      case Cambrian =>
      case Devonian =>
      case Silurian =>
      case Cretaceous =>
      case Paleogene =>
      case Carboniferous =>
    }
  }

  /** The lookup `geological_period_mapping[s]`; None where Python raises KeyError. */
  function EncodePeriod(s: string): (r: Option<int>)
    ensures forall g :: s == PeriodLabel(g) ==> r == Some(PeriodCode(g))
    ensures r.Some? <==> exists g :: s == PeriodLabel(g)
  {
    PeriodTableEnumerates();
    EnumeratedLookup(PeriodTable, AllPeriods, PeriodLabel, PeriodCode, s);
    Lookup(PeriodTable, s)
  }

  /** Codes lie in 0..10, distinct labels get distinct codes, and every code in 0..10 is used. */
  lemma PeriodCodesDense(a: string, b: string, c: int)
    ensures EncodePeriod(a).Some? ==> 0 <= EncodePeriod(a).value < 11
    ensures EncodePeriod(a).Some? && EncodePeriod(a) == EncodePeriod(b) ==> a == b
    ensures 0 <= c < 11 <==> exists s :: EncodePeriod(s) == Some(c)
  {
    PeriodTableEnumerates();
    DenseLookup(PeriodTable, a, b, c);
    if 0 <= c < 11 {
      assert EncodePeriod(PeriodTable[c].0) == Some(c);
    }
    if exists s :: EncodePeriod(s) == Some(c) {
      var s :| EncodePeriod(s) == Some(c);
      DenseLookup(PeriodTable, s, s, c);
    }
  }

  lemma PeriodTableExact()
    ensures EncodePeriod("Triassic") == Some(0)
    ensures EncodePeriod("Ordovician") == Some(1)
    ensures EncodePeriod("Jurassic") == Some(2)
    ensures EncodePeriod("Neogene") == Some(3)
    ensures EncodePeriod("Permian") == Some(4)
    ensures EncodePeriod("Cambrian") == Some(5)
    ensures EncodePeriod("Devonian") == Some(6)
    ensures EncodePeriod("Silurian") == Some(7)
    ensures EncodePeriod("Cretaceous") == Some(8)
    ensures EncodePeriod("Paleogene") == Some(9)
    ensures EncodePeriod("Carboniferous") == Some(10)
  {
    assert PeriodLabel(Triassic) == "Triassic";
    assert PeriodLabel(Ordovician) == "Ordovician";
    assert PeriodLabel(Jurassic) == "Jurassic";
    assert PeriodLabel(Neogene) == "Neogene";
    assert PeriodLabel(Permian) == "Permian";
    assert PeriodLabel(Cambrian) == "Cambrian";
    assert PeriodLabel(Devonian) == "Devonian";
    assert PeriodLabel(Silurian) == "Silurian";
    assert PeriodLabel(Cretaceous) == "Cretaceous";
    assert PeriodLabel(Paleogene) == "Paleogene";
    assert PeriodLabel(Carboniferous) == "Carboniferous";
  }

  // ---------------------------------------------------------------------------

  /**
   * Labels are matched exactly: a different spelling, case or an extra space
   * is no label, and lookup fails rather than falling back to a default code.
   */
  lemma UnknownLabelsFail()
    ensures EncodePosition("middle") == None
    ensures EncodePolarity("Normal") == None
    ensures EncodeRock("Granite") == None
    ensures EncodeInclusion("yes") == None
    ensures EncodePeriod("Jurassic ") == None
    ensures EncodePeriod("") == None
  {
  }
}
