/**
 * Reference data and the in-memory survey form: the check-box maps, the
 * single-choice fields, the animal severities and the free-text fields that
 * the wizard fills in, and the blank form every new survey starts from.
 */
module Forms {

  // ---------- reference data ----------

  const VEGETATION: seq<string> := ["Forest", "Woodland", "Shrubland", "Other"]
  const DOMINANT_SPECIES: seq<string> := ["Jarrah", "Marri", "Karri", "Wandoo", "Other"]
  const LANDFORM: seq<string> := ["Crest", "Upper slope", "Midslope", "Lower slope", "Simple slope",
                                  "Flat", "Open depression", "Closed depression", "Hillock", "Ridge"]
  const WATER_FEATURES: seq<string> := ["Riverine permanent", "Riverine seasonal", "Riverine floodplain",
                                        "Pool permanent", "Pool seasonal", "Marsh, swamp", "Spring",
                                        "Peatland", "Man-made"]
  const FIRE_PRESENCE: seq<string> := ["No evidence/>10 yrs", "3-10 yrs", "1-3 yrs", "<1 yr"]
  const FIRE_INTENSITY: seq<string> := ["No evidence", "Patchy (unburned patches up to 2m scorch)",
                                        "Low (no unburned patches up to 2m scorch)", "2-5 m scorch",
                                        "High (complete canopy scorch)", "Extreme"]
  const SOIL_COLOUR: seq<string> := ["Grey", "Brown", "Yellow", "Orange", "Red", "Pink", "Pale/Dark"]
  const SOIL_TYPE: seq<string> := ["Sand", "Loam", "Clay", "Peat"]
  const DIEBACK: seq<string> := ["No evidence", "Some loss of indicator species",
                                 "Extensive loss of indicator species"]
  const DROUGHT_STRESS: seq<string> := ["No stress evident", "Evident on some individuals",
                                        "Evident on some taxa", "Extensive across taxa and site"]
  const ANIMAL_TYPES: seq<string> := ["Rabbits", "Kangaroo (grazing)", "Pigs", "Horse/Donkey/Cattle",
                                      "Other feral"]

  /** The key of the check box that comes with a free-text entry. */
  const OTHER: string := "Other"
  /** The animal type whose severity comes with a free-text note. */
  const OTHER_FERAL: string := "Other feral"
  /** The largest animal severity: 0 none, 1 light, 2 moderate, 3 heavy. */
  const SEVERITY_MAX: int := 3

  const ANIMAL_KEYS: set<string> := set a | a in ANIMAL_TYPES

  predicate Distinct(keys: seq<string>) {
    forall i, j :: 0 <= i < j < |keys| ==> keys[i] != keys[j]
  }

  /** No entry of `a` is an entry of `b`. */
  predicate Apart(a: seq<string>, b: seq<string>) {
    forall i, j :: 0 <= i < |a| && 0 <= j < |b| ==> a[i] != b[j]
  }

  lemma DistinctConcat(a: seq<string>, b: seq<string>)
    requires Distinct(a) && Distinct(b) && Apart(a, b)
    ensures Distinct(a + b)
  {
    forall i, j | 0 <= i < j < |a + b| ensures (a + b)[i] != (a + b)[j] {
      if j < |a| {
        assert (a + b)[i] == a[i] && (a + b)[j] == a[j];
      } else if i < |a| {
        assert (a + b)[i] == a[i] && (a + b)[j] == b[j - |a|];
      } else {
        assert (a + b)[i] == b[i - |a|] && (a + b)[j] == b[j - |a|];
      }
    }
  }

  lemma ApartConcat(a: seq<string>, b: seq<string>, c: seq<string>)
    requires Apart(a, c) && Apart(b, c)
    ensures Apart(a + b, c)
  {
    forall i, j | 0 <= i < |a + b| && 0 <= j < |c| ensures (a + b)[i] != c[j] {
      if i < |a| {
        assert (a + b)[i] == a[i];
      } else {
        assert (a + b)[i] == b[i - |a|];
      }
    }
  }

  /** No two entries of a reference list coincide, so each list can key a dictionary. */
  lemma ReferenceListsDistinct()
    ensures Distinct(VEGETATION) && Distinct(DOMINANT_SPECIES) && Distinct(LANDFORM)
    ensures Distinct(WATER_FEATURES) && Distinct(SOIL_COLOUR) && Distinct(SOIL_TYPE)
    ensures Distinct(ANIMAL_TYPES)
  {
  }

  // ---------- check-box maps ----------

  /** A dictionary from option name to "ticked", as a list of pairs in insertion order. */
  type CheckMap = seq<(string, bool)>

  /** The map's keys are exactly `keys`, in that order. */
  predicate KeyedBy(m: CheckMap, keys: seq<string>) {
    |m| == |keys| && forall i :: 0 <= i < |m| ==> m[i].0 == keys[i]
  }

  predicate NoneTicked(m: CheckMap) {
    forall i :: 0 <= i < |m| ==> !m[i].1
  }

  /** {k: False for k in keys}: every option present and unticked. */
  function Unticked(keys: seq<string>): (m: CheckMap)
    ensures KeyedBy(m, keys) && NoneTicked(m)
  {
    seq(|keys|, i requires 0 <= i < |keys| => (keys[i], false))
  }

  /** d.get(key) read as a truth value: a missing key reads as false. */
  function Get(m: CheckMap, key: string): (b: bool)
    ensures b ==> exists i :: 0 <= i < |m| && m[i] == (key, true)
    ensures (forall i :: 0 <= i < |m| ==> m[i].0 != key) ==> !b
  {
    if m == [] then false else if m[0].0 == key then m[0].1 else Get(m[1..], key)
  }

  /** In a map keyed by a list of distinct names, Get reads the flag stored under that name. */
  lemma {:induction false} GetKeyed(m: CheckMap, keys: seq<string>, i: nat)
    requires KeyedBy(m, keys) && Distinct(keys) && i < |m|
    ensures Get(m, keys[i]) == m[i].1
  {
    if i > 0 {
      assert m[0].0 == keys[0] != keys[i];
      assert KeyedBy(m[1..], keys[1..]);
      GetKeyed(m[1..], keys[1..], i - 1);
    }
  }

  /** d[key] = v: overwrites the flag of an existing key in place, or appends a new key. */
  function Set(m: CheckMap, key: string, v: bool): (r: CheckMap)
    ensures Get(r, key) == v
    ensures |m| <= |r| <= |m| + 1
  {
    if m == [] then [(key, v)]
    else if m[0].0 == key then [(key, v)] + m[1..]
    else [m[0]] + Set(m[1..], key, v)
  }

  /** In a map keyed by distinct names, assigning under one of them changes
      that one entry and keeps every key and its position. */
  lemma {:induction false} SetKeyed(m: CheckMap, keys: seq<string>, i: nat, v: bool)
    requires KeyedBy(m, keys) && Distinct(keys) && i < |m|
    ensures Set(m, keys[i], v) == m[i := (keys[i], v)]
  {
    if i > 0 {
      assert m[0].0 == keys[0] != keys[i];
      assert KeyedBy(m[1..], keys[1..]);
      SetKeyed(m[1..], keys[1..], i - 1, v);
      assert m[1..][i - 1 := (keys[i], v)] == m[i := (keys[i], v)][1..];
    }
  }

  /** Assigning a key that is absent appends it at the end. */
  lemma {:induction false} SetAbsent(m: CheckMap, key: string, v: bool)
    requires forall i :: 0 <= i < |m| ==> m[i].0 != key
    ensures Set(m, key, v) == m + [(key, v)]
  {
    if m != [] {
      SetAbsent(m[1..], key, v);
      assert m == [m[0]] + m[1..];
    }
  }

  // ---------- the form ----------

  /** The survey being filled in: one field per entry of the form dictionary. */
  datatype Form = Form(
    date: string,
    site: string,
    vegetation: CheckMap,
    vegetationOther: string,
    dominantSpecies: CheckMap,
    dominantOther: string,
    landform: CheckMap,
    waterFeatures: CheckMap,
    firePresence: string,
    fireIntensity: string,
    coarseSurface: bool,
    rockOutcrop: bool,
    soilColour: CheckMap,
    soilType: CheckMap,
    dieback: string,
    droughtStress: string,
    stressedTaxa: string,
    weedsSpecies: string,
    weedsExtentDensity: string,
    weedsPercent: int,
    animals: map<string, int>,
    animalsOtherText: string,
    otherComments: string)

  /** The six check-box groups of the form. */
  datatype Group = Vegetation | DominantSpecies | Landform | WaterFeatures | SoilColour | SoilType

  /** The reference list a group's check boxes are drawn from. */
  function Options(g: Group): seq<string> {
    match g
    case Vegetation => VEGETATION
    case DominantSpecies => DOMINANT_SPECIES
    case Landform => LANDFORM
    case WaterFeatures => WATER_FEATURES
    case SoilColour => SOIL_COLOUR
    case SoilType => SOIL_TYPE
  }

  /** The wizard page on which a group's check boxes are shown. */
  function GroupPage(g: Group): (step: int)
    ensures 1 <= step <= 6
  {
    match g
    case Vegetation => 1
    case DominantSpecies => 2
    case Landform => 3
    case WaterFeatures => 4
    case SoilColour => 6
    case SoilType => 6
  }

  function Boxes(f: Form, g: Group): CheckMap {
    match g
    case Vegetation => f.vegetation
    case DominantSpecies => f.dominantSpecies
    case Landform => f.landform
    case WaterFeatures => f.waterFeatures
    case SoilColour => f.soilColour
    case SoilType => f.soilType
  }

  /** The form with one group's check boxes replaced. */
  function WithBoxes(f: Form, g: Group, m: CheckMap): (r: Form)
    ensures Boxes(r, g) == m
    ensures forall h :: h != g ==> Boxes(r, h) == Boxes(f, h)
  {
    match g
    case Vegetation => f.(vegetation := m)
    case DominantSpecies => f.(dominantSpecies := m)
    case Landform => f.(landform := m)
    case WaterFeatures => f.(waterFeatures := m)
    case SoilColour => f.(soilColour := m)
    case SoilType => f.(soilType := m)
  }

  /** The shape every form the wizard handles has: each check-box map keyed
      by its reference list, each single choice one of its options, the
      weeds percentage within the widget's 0..100 and one severity in 0..3
      per animal type. */
  predicate WellFormed(f: Form) {
    && KeyedBy(f.vegetation, VEGETATION)
    && KeyedBy(f.dominantSpecies, DOMINANT_SPECIES)
    && KeyedBy(f.landform, LANDFORM)
    && KeyedBy(f.waterFeatures, WATER_FEATURES)
    && KeyedBy(f.soilColour, SOIL_COLOUR)
    && KeyedBy(f.soilType, SOIL_TYPE)
    && f.firePresence in FIRE_PRESENCE
    && f.fireIntensity in FIRE_INTENSITY
    && f.dieback in DIEBACK
    && f.droughtStress in DROUGHT_STRESS
    && 0 <= f.weedsPercent <= 100
    && SeveritiesOk(f.animals)
  }

  /** One severity in 0..3 for each animal type and nothing else. */
  predicate SeveritiesOk(animals: map<string, int>) {
    animals.Keys == ANIMAL_KEYS && forall a :: a in animals ==> 0 <= animals[a] <= SEVERITY_MAX
  }

  lemma WellFormedBoxes(f: Form, g: Group)
    requires WellFormed(f)
    ensures KeyedBy(Boxes(f, g), Options(g))
  {
  }

  /** Replacing a group's boxes by a map with the same keys keeps the form well formed. */
  lemma WithBoxesWellFormed(f: Form, g: Group, m: CheckMap)
    requires WellFormed(f) && KeyedBy(m, Options(g))
    ensures WellFormed(WithBoxes(f, g, m))
  {
  }

  /** default_form(): the blank survey dated `today`. */
  function DefaultForm(today: string): (f: Form)
    ensures WellFormed(f)
    ensures f.date == today
    ensures forall g :: NoneTicked(Boxes(f, g))
    ensures f.firePresence == FIRE_PRESENCE[0] && f.fireIntensity == FIRE_INTENSITY[0]
    ensures f.dieback == DIEBACK[0] && f.droughtStress == DROUGHT_STRESS[0]
    ensures forall a :: a in ANIMAL_TYPES ==> f.animals[a] == 0
    ensures !f.coarseSurface && !f.rockOutcrop && f.weedsPercent == 0
    ensures f.site == f.vegetationOther == f.dominantOther == ""
    ensures f.stressedTaxa == f.weedsSpecies == f.weedsExtentDensity == ""
    ensures f.animalsOtherText == f.otherComments == ""
  {
    Form(
      date := today,
      site := "",
      vegetation := Unticked(VEGETATION),
      vegetationOther := "",
      dominantSpecies := Unticked(DOMINANT_SPECIES),
      dominantOther := "",
      landform := Unticked(LANDFORM),
      waterFeatures := Unticked(WATER_FEATURES),
      firePresence := FIRE_PRESENCE[0],
      fireIntensity := FIRE_INTENSITY[0],
      coarseSurface := false,
      rockOutcrop := false,
      soilColour := Unticked(SOIL_COLOUR),
      soilType := Unticked(SOIL_TYPE),
      dieback := DIEBACK[0],
      droughtStress := DROUGHT_STRESS[0],
      stressedTaxa := "",
      weedsSpecies := "",
      weedsExtentDensity := "",
      weedsPercent := 0,
      animals := map a | a in ANIMAL_TYPES :: 0,
      animalsOtherText := "",
      otherComments := "")
  }
}
