/**
 * The export record: collect_export_record flattens the survey form into one
 * row of 27 named cells, with the submission id, the check-box groups joined
 * with "; " and the animal severities copied into fixed columns.
 */
module Export {
  import opened Text
  import opened Forms

  datatype Option<T> = None | Some(value: T)

  const SEPARATOR: string := "; "
  /** The prefix the record puts in front of the free-text "Other" entry. */
  const RECORD_OTHER_LABEL: string := "Other:"

  // ---------- ticked keys ----------

  /** [k for k, v in m.items() if v and k != skip]: the ticked keys in map
      order, leaving out `skip` when one is given. */
  function Ticked(m: CheckMap, skip: Option<string>): (ks: seq<string>)
    ensures |ks| <= |m|
  {
    if m == [] then []
    else (if m[0].1 && skip != Some(m[0].0) then [m[0].0] else []) + Ticked(m[1..], skip)
  }

  /** A key is listed exactly when it is ticked and is not the one left out. */
  lemma {:induction false} TickedMember(m: CheckMap, skip: Option<string>, k: string)
    ensures k in Ticked(m, skip) <==> (k, true) in m && skip != Some(k)
  {
    if m != [] {
      TickedMember(m[1..], skip, k);
      assert m == [m[0]] + m[1..];
    }
  }

  /** Listing respects concatenation, so the keys come out in map order. */
  lemma {:induction false} TickedConcat(a: CheckMap, b: CheckMap, skip: Option<string>)
    ensures Ticked(a + b, skip) == Ticked(a, skip) + Ticked(b, skip)
  {
    if a == [] {
      assert a + b == b;
    } else {
      assert (a + b)[1..] == a[1..] + b;
      TickedConcat(a[1..], b, skip);
    }
  }

  /** Nothing is listed from a map with no tick. */
  lemma {:induction false} TickedNone(m: CheckMap, skip: Option<string>)
    requires NoneTicked(m)
    ensures Ticked(m, skip) == []
  {
    if m != [] {
      assert NoneTicked(m[1..]) by {
        assert forall i :: 0 <= i < |m[1..]| ==> m[1..][i] == m[i + 1];
      }
      TickedNone(m[1..], skip);
    }
  }

  /** The list is empty exactly when every ticked key is the one left out. */
  lemma TickedEmptyIff(m: CheckMap, skip: Option<string>)
    ensures Ticked(m, skip) == [] <==> forall i :: 0 <= i < |m| && m[i].1 ==> skip == Some(m[i].0)
  {
    if Ticked(m, skip) == [] {
      forall i | 0 <= i < |m| && m[i].1 ensures skip == Some(m[i].0) {
        TickedMember(m, skip, m[i].0);
      }
    } else {
      var k := Ticked(m, skip)[0];
      TickedMember(m, skip, k);
    }
  }

  /** Every listed key is one of the map's keys, and none is empty when no key is. */
  lemma TickedNonEmptyItems(m: CheckMap, skip: Option<string>)
    requires forall i :: 0 <= i < |m| ==> m[i].0 != ""
    ensures forall j :: 0 <= j < |Ticked(m, skip)| ==> Ticked(m, skip)[j] != ""
  {
    forall j | 0 <= j < |Ticked(m, skip)| ensures Ticked(m, skip)[j] != "" {
      TickedMember(m, skip, Ticked(m, skip)[j]);
    }
  }

  // ---------- the "Other" entry ----------

  /** The ticked keys, with `prefix` + the stripped free text appended when the
      `otherKey` box is ticked and the text is not blank; with no (or an
      empty) `otherKey` nothing is appended. The record uses "Other:" as the
      prefix and the summary image "Other: ". */
  function Choices(m: CheckMap, otherKey: Option<string>, otherText: string, prefix: string): (r: seq<string>)
    ensures var sel := Ticked(m, otherKey);
      |sel| <= |r| <= |sel| + 1 && r[..|sel|] == sel
  {
    var sel := Ticked(m, otherKey);
    if otherKey.Some? && otherKey.value != "" && Get(m, otherKey.value) && PyStrip(otherText) != ""
    then sel + [prefix + PyStrip(otherText)]
    else sel
  }

  /** No key of the map contains ':' (true of every reference list). */
  predicate ColonFree(m: CheckMap) {
    forall i :: 0 <= i < |m| ==> ':' !in m[i].0
  }

  /** With "Other" as the special key: an ordinary key is listed exactly when
      it is ticked and is not "Other", and the free-text entry is listed
      exactly when "Other" is ticked and its stripped text is not blank. */
  lemma ChoicesMembers(m: CheckMap, otherText: string, prefix: string)
    requires ColonFree(m) && ':' in prefix
    ensures forall k :: ':' !in k ==> (k in Choices(m, Some(OTHER), otherText, prefix) <==> (k, true) in m && k != OTHER)
    ensures prefix + PyStrip(otherText) in Choices(m, Some(OTHER), otherText, prefix)
        <==> Get(m, OTHER) && PyStrip(otherText) != ""
  {
    var sel := Ticked(m, Some(OTHER));
    var entry := prefix + PyStrip(otherText);
    assert ':' in entry by {
      var j :| 0 <= j < |prefix| && prefix[j] == ':';
      assert entry[j] == ':';
    }
    forall k | ':' !in k ensures k in Choices(m, Some(OTHER), otherText, prefix) <==> (k, true) in m && k != OTHER {
      TickedMember(m, Some(OTHER), k);
    }
    TickedMember(m, Some(OTHER), entry);
    assert entry !in sel by {
      assert forall i :: 0 <= i < |m| ==> m[i] != (entry, true);
    }
  }

  /** Free text made only of whitespace adds nothing, ticked or not. */
  lemma BlankOtherIgnored(m: CheckMap, otherKey: Option<string>, otherText: string, prefix: string)
    requires forall i :: 0 <= i < |otherText| ==> IsSpace(otherText[i])
    ensures Choices(m, otherKey, otherText, prefix) == Ticked(m, otherKey)
  {
    StripEmptyIff(otherText, IsSpace);
  }

  /** With the "Other" box unticked, the list is the ticked keys alone,
      whatever the free text. */
  lemma UntickedOtherIgnored(m: CheckMap, otherText: string, prefix: string)
    requires (OTHER, true) !in m
    ensures Choices(m, Some(OTHER), otherText, prefix) == Ticked(m, Some(OTHER))
  {
  }

  /** The joined list is "" exactly when nothing is listed: reference keys
      are never empty and neither is the free-text entry. */
  lemma JoinChoicesEmptyIff(m: CheckMap, otherKey: Option<string>, otherText: string, prefix: string)
    requires forall i :: 0 <= i < |m| ==> m[i].0 != ""
    ensures Join(SEPARATOR, Choices(m, otherKey, otherText, prefix)) == ""
        <==> Choices(m, otherKey, otherText, prefix) == []
  {
    var xs := Choices(m, otherKey, otherText, prefix);
    TickedNonEmptyItems(m, otherKey);
    assert forall i :: 0 <= i < |xs| ==> xs[i] != "";
    JoinEmptyIff(SEPARATOR, xs);
  }

  // ---------- the record ----------

  /** One scalar cell of the exported row. */
  datatype Cell = Str(s: string) | Flag(b: bool) | Num(n: int)

  /** The flat export record, one field per column. */
  datatype Record = Record(
    submissionId: string,
    date: string,
    site: string,
    vegetation: string,
    dominantSpecies: string,
    landform: string,
    waterFeatures: string,
    firePresence: string,
    fireIntensity: string,
    coarseSurface: bool,
    rockOutcrop: bool,
    soilColour: string,
    soilType: string,
    dieback: string,
    droughtStress: string,
    stressedTaxa: string,
    weedsSpecies: string,
    weedsExtentDensity: string,
    weedsPercent: int,
    animalsRabbits: int,
    animalsKangaroo: int,
    animalsPigs: int,
    animalsHdc: int,
    animalsOther: int,
    animalsOtherText: string,
    otherComments: string,
    summaryImage: string)

  /** "; "-join of a group's ticked keys. */
  function JoinTicked(m: CheckMap): string {
    Join(SEPARATOR, Ticked(m, None))
  }

  /** "; "-join of a group's ticked keys with "Other" replaced by its free text. */
  function JoinWithOther(m: CheckMap, otherText: string): string {
    Join(SEPARATOR, Choices(m, Some(OTHER), otherText, RECORD_OTHER_LABEL))
  }

  /** collect_export_record(form). The severities are looked up by name, so
      the form must hold all five animal types. */
  function Collect(f: Form): (r: Record)
    requires ANIMAL_KEYS <= f.animals.Keys
    ensures r.submissionId == SubmissionId(f.date, f.site)
    ensures r.date == f.date && r.site == f.site
    ensures r.firePresence == f.firePresence && r.fireIntensity == f.fireIntensity
    ensures r.coarseSurface == f.coarseSurface && r.rockOutcrop == f.rockOutcrop
    ensures r.dieback == f.dieback && r.droughtStress == f.droughtStress
    ensures r.stressedTaxa == f.stressedTaxa && r.weedsSpecies == f.weedsSpecies
    ensures r.weedsExtentDensity == f.weedsExtentDensity && r.weedsPercent == f.weedsPercent
    ensures r.animalsRabbits == f.animals["Rabbits"] && r.animalsKangaroo == f.animals["Kangaroo (grazing)"]
    ensures r.animalsPigs == f.animals["Pigs"] && r.animalsHdc == f.animals["Horse/Donkey/Cattle"]
    ensures r.animalsOther == f.animals[OTHER_FERAL]
    ensures r.animalsOtherText == f.animalsOtherText && r.otherComments == f.otherComments
    ensures r.summaryImage == ""
  {
    Record(
      submissionId := SubmissionId(f.date, f.site),
      date := f.date,
      site := f.site,
      vegetation := JoinWithOther(f.vegetation, f.vegetationOther),
      dominantSpecies := JoinWithOther(f.dominantSpecies, f.dominantOther),
      landform := JoinTicked(f.landform),
      waterFeatures := JoinTicked(f.waterFeatures),
      firePresence := f.firePresence,
      fireIntensity := f.fireIntensity,
      coarseSurface := f.coarseSurface,
      rockOutcrop := f.rockOutcrop,
      soilColour := JoinTicked(f.soilColour),
      soilType := JoinTicked(f.soilType),
      dieback := f.dieback,
      droughtStress := f.droughtStress,
      stressedTaxa := f.stressedTaxa,
      weedsSpecies := f.weedsSpecies,
      weedsExtentDensity := f.weedsExtentDensity,
      weedsPercent := f.weedsPercent,
      animalsRabbits := f.animals["Rabbits"],
      animalsKangaroo := f.animals["Kangaroo (grazing)"],
      animalsPigs := f.animals["Pigs"],
      animalsHdc := f.animals["Horse/Donkey/Cattle"],
      animalsOther := f.animals[OTHER_FERAL],
      animalsOtherText := f.animalsOtherText,
      otherComments := f.otherComments,
      summaryImage := "")
  }

  // ---------- what the collector promises ----------

  /** A plain group's column is "" exactly when none of its boxes is ticked. */
  lemma JoinTickedEmptyIff(m: CheckMap)
    requires forall i :: 0 <= i < |m| ==> m[i].0 != ""
    ensures JoinTicked(m) == "" <==> NoneTicked(m)
  {
    TickedNonEmptyItems(m, None);
    JoinEmptyIff(SEPARATOR, Ticked(m, None));
    TickedEmptyIff(m, None);
  }

  /** No reference list has an empty entry. */
  lemma OptionsNonEmpty(g: Group)
    ensures forall i :: 0 <= i < |Options(g)| ==> Options(g)[i] != ""
  {
  }

  /** No vegetation or dominant-species option contains ':', so none can be
      mistaken for the free-text entry. */
  lemma OtherGroupsColonFree()
    ensures forall i :: 0 <= i < |VEGETATION| ==> ':' !in VEGETATION[i]
    ensures forall i :: 0 <= i < |DOMINANT_SPECIES| ==> ':' !in DOMINANT_SPECIES[i]
  {
  }

  lemma KeyedNonEmpty(m: CheckMap, g: Group)
    requires KeyedBy(m, Options(g))
    ensures forall i :: 0 <= i < |m| ==> m[i].0 != ""
  {
    OptionsNonEmpty(g);
  }

  /** On a well-formed form the landform, water, soil colour and soil type
      columns are "" exactly when their group has no tick. */
  lemma CollectPlainGroupsEmptyIff(f: Form)
    requires WellFormed(f)
    ensures Collect(f).landform == "" <==> NoneTicked(f.landform)
    ensures Collect(f).waterFeatures == "" <==> NoneTicked(f.waterFeatures)
    ensures Collect(f).soilColour == "" <==> NoneTicked(f.soilColour)
    ensures Collect(f).soilType == "" <==> NoneTicked(f.soilType)
  {
    KeyedNonEmpty(f.landform, Landform);
    JoinTickedEmptyIff(f.landform);
    KeyedNonEmpty(f.waterFeatures, WaterFeatures);
    JoinTickedEmptyIff(f.waterFeatures);
    KeyedNonEmpty(f.soilColour, SoilColour);
    JoinTickedEmptyIff(f.soilColour);
    KeyedNonEmpty(f.soilType, SoilType);
    JoinTickedEmptyIff(f.soilType);
  }

  /** On a well-formed form the vegetation list holds exactly the ticked
      names other than "Other", plus the "Other:" entry exactly when "Other"
      is ticked and its stripped text is not blank; likewise for the
      dominant species. */
  lemma CollectOtherGroups(f: Form)
    requires WellFormed(f)
    ensures var xs := Choices(f.vegetation, Some(OTHER), f.vegetationOther, RECORD_OTHER_LABEL);
      && Collect(f).vegetation == Join(SEPARATOR, xs)
      && (forall k :: ':' !in k ==> (k in xs <==> (k, true) in f.vegetation && k != OTHER))
      && (RECORD_OTHER_LABEL + PyStrip(f.vegetationOther) in xs
          <==> Get(f.vegetation, OTHER) && PyStrip(f.vegetationOther) != "")
    ensures var xs := Choices(f.dominantSpecies, Some(OTHER), f.dominantOther, RECORD_OTHER_LABEL);
      && Collect(f).dominantSpecies == Join(SEPARATOR, xs)
      && (forall k :: ':' !in k ==> (k in xs <==> (k, true) in f.dominantSpecies && k != OTHER))
      && (RECORD_OTHER_LABEL + PyStrip(f.dominantOther) in xs
          <==> Get(f.dominantSpecies, OTHER) && PyStrip(f.dominantOther) != "")
  {
    OtherGroupsColonFree();
    ChoicesMembers(f.vegetation, f.vegetationOther, RECORD_OTHER_LABEL);
    ChoicesMembers(f.dominantSpecies, f.dominantOther, RECORD_OTHER_LABEL);
  }

  /** On a well-formed form the vegetation and dominant-species columns are
      "" exactly when their list of choices is empty. */
  lemma CollectOtherGroupsEmptyIff(f: Form)
    requires WellFormed(f)
    ensures Collect(f).vegetation == ""
        <==> Choices(f.vegetation, Some(OTHER), f.vegetationOther, RECORD_OTHER_LABEL) == []
    ensures Collect(f).dominantSpecies == ""
        <==> Choices(f.dominantSpecies, Some(OTHER), f.dominantOther, RECORD_OTHER_LABEL) == []
  {
    KeyedNonEmpty(f.vegetation, Vegetation);
    JoinChoicesEmptyIff(f.vegetation, Some(OTHER), f.vegetationOther, RECORD_OTHER_LABEL);
    KeyedNonEmpty(f.dominantSpecies, DominantSpecies);
    JoinChoicesEmptyIff(f.dominantSpecies, Some(OTHER), f.dominantOther, RECORD_OTHER_LABEL);
  }

  /** The record of the blank form: every list column empty, every severity
      0, every text empty, and the id the hyphen-free date followed by '_'. */
  lemma CollectDefault(today: string)
    ensures var r := Collect(DefaultForm(today));
      && r.submissionId == RemoveAll(today, '-') + "_"
      && r.vegetation == r.dominantSpecies == r.landform == r.waterFeatures == ""
      && r.soilColour == r.soilType == ""
      && r.animalsRabbits == r.animalsKangaroo == r.animalsPigs == r.animalsHdc == r.animalsOther == 0
      && r.site == r.stressedTaxa == r.weedsSpecies == r.weedsExtentDensity == ""
      && r.animalsOtherText == r.otherComments == r.summaryImage == ""
      && r.weedsPercent == 0 && !r.coarseSurface && !r.rockOutcrop
  {
    var f := DefaultForm(today);
    SubmissionIdBlankSite(today, f.site);
    TickedNone(f.vegetation, Some(OTHER));
    TickedNone(f.dominantSpecies, Some(OTHER));
    TickedNone(f.landform, None);
    TickedNone(f.waterFeatures, None);
    TickedNone(f.soilColour, None);
    TickedNone(f.soilType, None);
  }

  /** The record's id is the hyphen-free date, '_' and the sanitised site,
      and the part after the date holds only word characters. */
  lemma CollectId(f: Form)
    requires ANIMAL_KEYS <= f.animals.Keys
    requires forall i :: 0 <= i < |f.date| ==> f.date[i] != '_'
    ensures var d := RemoveAll(f.date, '-'); var id := Collect(f).submissionId;
      && |id| == |d| + 1 + |Sanitise(f.site)|
      && id[..|d|] == d && '-' !in id[..|d|] && '_' !in id[..|d|] && id[|d|] == '_'
      && id[|d| + 1..] == Sanitise(f.site) && AllWordChars(id[|d| + 1..])
  {
    SubmissionIdParts(f.date, f.site);
  }

  // ---------- the row ----------

  /** The record's keys in the order the row is written, in three parts of
      nine: the id, the place and its cover; the surface, soil, stress and
      weed texts; and the tail: the weeds percentage, the animals, the
      comments and the image. */
  const COLUMNS: seq<string> := SITE_COLUMNS + CONDITION_COLUMNS + TAIL_COLUMNS
  const SITE_COLUMNS: seq<string> := [
    "submission_id", "date", "site", "vegetation", "dominant_species", "landform",
    "water_features", "fire_presence", "fire_intensity"]
  const CONDITION_COLUMNS: seq<string> := [
    "coarse_surface", "rock_outcrop", "soil_colour", "soil_type", "dieback", "drought_stress",
    "stressed_taxa", "weeds_species", "weeds_extent_density"]
  const TAIL_COLUMNS: seq<string> := [
    "weeds_percent", "animals_rabbits", "animals_kangaroo", "animals_pigs", "animals_hdc",
    "animals_other", "animals_other_text", "other_comments", "summary_image"]

  /** The record's cells in column order. */
  function Cells(r: Record): seq<Cell> {
    [Str(r.submissionId), Str(r.date), Str(r.site), Str(r.vegetation), Str(r.dominantSpecies),
     Str(r.landform), Str(r.waterFeatures), Str(r.firePresence), Str(r.fireIntensity),
     Flag(r.coarseSurface), Flag(r.rockOutcrop), Str(r.soilColour), Str(r.soilType),
     Str(r.dieback), Str(r.droughtStress), Str(r.stressedTaxa), Str(r.weedsSpecies),
     Str(r.weedsExtentDensity), Num(r.weedsPercent), Num(r.animalsRabbits), Num(r.animalsKangaroo),
     Num(r.animalsPigs), Num(r.animalsHdc), Num(r.animalsOther), Str(r.animalsOtherText),
     Str(r.otherComments), Str(r.summaryImage)]
  }

  /** The row written for a record: 27 distinct column names, each paired
      with its cell, the id first and the image name last. */
  function Row(r: Record): (row: seq<(string, Cell)>)
    ensures |row| == |COLUMNS| == 27
    ensures forall i :: 0 <= i < |row| ==> row[i].0 == COLUMNS[i]
  {
    seq(27, i requires 0 <= i < 27 => (COLUMNS[i], Cells(r)[i]))
  }

  /** No column name repeats, so the row is a dictionary with 27 keys. */
  lemma ColumnsDistinct()
    ensures Distinct(COLUMNS)
  {
    assert Distinct(SITE_COLUMNS) && Distinct(CONDITION_COLUMNS) && Distinct(TAIL_COLUMNS);
    ColumnPartsApart();
    DistinctConcat(SITE_COLUMNS, CONDITION_COLUMNS);
    DistinctConcat(SITE_COLUMNS + CONDITION_COLUMNS, TAIL_COLUMNS);
  }

  lemma ColumnPartsApart()
    ensures Apart(SITE_COLUMNS + CONDITION_COLUMNS, TAIL_COLUMNS)
    ensures Apart(SITE_COLUMNS, CONDITION_COLUMNS)
  {
    assert Apart(SITE_COLUMNS, TAIL_COLUMNS) && Apart(CONDITION_COLUMNS, TAIL_COLUMNS);
    ApartConcat(SITE_COLUMNS, CONDITION_COLUMNS, TAIL_COLUMNS);
  }

  /** Distinct records give distinct rows: the row loses nothing. */
  lemma RowInjective(r1: Record, r2: Record)
    requires Row(r1) == Row(r2)
    ensures r1 == r2
  {
    assert forall i :: 0 <= i < 27 ==> Cells(r1)[i] == Row(r1)[i].1;
    assert Cells(r1) == Cells(r2);
  }
}
