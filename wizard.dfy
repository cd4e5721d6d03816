/**
 * The wizard: the session state (mode, step, form, last export) and one
 * method per button or per page of form widgets. A button that is not on
 * screen in the current state returns handled = false and changes nothing.
 * The files Finish writes are kept as the list of forms it exported: the
 * CSV rows are Rows of that list and each image is the summary of its form.
 */
module Wizard {
  import opened Text
  import opened Forms
  import opened Export
  import opened Summary

  datatype Mode = Splash | New | View

  /** The last content page; the page after it is the export page. */
  const LAST_PAGE: int := 10
  const DONE_PAGE: int := 11
  const SUMMARY_DIR: string := "summaries"

  /** What Finish leaves in the session for the export page. */
  datatype Exported = Exported(record: Record, imagePath: string, csvName: string, imageName: string)

  /** The file names Finish derives from a submission id. */
  function ImageName(id: string): string {
    id + ".png"
  }

  function CsvName(id: string): string {
    id + "_site_characteristics.csv"
  }

  /** os.path.join(SUMMARY_DIR, name) with the POSIX separator. */
  function ImagePath(name: string): string {
    SUMMARY_DIR + "/" + name
  }

  /** The record Finish appends: the collected record with the image name filled in. */
  function FinishedRecord(f: Form): (r: Record)
    requires ANIMAL_KEYS <= f.animals.Keys
    ensures r.summaryImage == ImageName(r.submissionId)
    ensures r.submissionId == SubmissionId(f.date, f.site)
    ensures r.(summaryImage := "") == Collect(f)
  {
    var r := Collect(f);
    r.(summaryImage := ImageName(r.submissionId))
  }

  /** The names of an export all come from one submission id. */
  predicate ExportConsistent(e: Exported) {
    && e.imageName == ImageName(e.record.submissionId)
    && e.record.summaryImage == e.imageName
    && e.imagePath == ImagePath(e.imageName)
    && e.csvName == CsvName(e.record.submissionId)
  }

  /** The image name ends in ".png" and the CSV name in "_site_characteristics.csv",
      each after the id, and the image lives in the summaries directory. */
  lemma ExportNames(id: string)
    ensures ImageName(id)[..|id|] == id && ImageName(id)[|id|..] == ".png"
    ensures CsvName(id)[..|id|] == id && CsvName(id)[|id|..] == "_site_characteristics.csv"
    ensures ImagePath(ImageName(id)) == "summaries/" + id + ".png"
  {
  }

  /** The export Finish makes of a form: the finished record and the names
      derived from its id. */
  function ExportOf(f: Form): (e: Exported)
    requires ANIMAL_KEYS <= f.animals.Keys
    ensures ExportConsistent(e)
    ensures e.record == FinishedRecord(f)
  {
    var r := FinishedRecord(f);
    Exported(r, ImagePath(r.summaryImage), CsvName(r.submissionId), r.summaryImage)
  }

  /** A form collect_export_record can read: it holds a severity for every animal type. */
  predicate Collectable(f: Form) {
    ANIMAL_KEYS <= f.animals.Keys
  }

  predicate AllCollectable(forms: seq<Form>) {
    forall i :: 0 <= i < |forms| ==> Collectable(forms[i])
  }

  /** The CSV rows of a list of exported forms: the finished record of each, in order. */
  function Rows(forms: seq<Form>): (rows: seq<Record>)
    requires AllCollectable(forms)
    ensures |rows| == |forms|
  {
    if forms == [] then []
    else
      var last := forms[|forms| - 1];
      assert Collectable(last);
      Rows(forms[..|forms| - 1]) + [FinishedRecord(last)]
  }

  /** Row i of the file is the finished record of the i-th form exported. */
  lemma {:induction false} RowsAt(forms: seq<Form>, i: int)
    requires AllCollectable(forms)
    requires 0 <= i < |forms|
    ensures Rows(forms)[i] == FinishedRecord(forms[i])
  {
    if i < |forms| - 1 {
      var init := forms[..|forms| - 1];
      RowsAt(init, i);
      assert init[i] == forms[i];
    }
  }

  /** Exporting one more form appends exactly its row (write_csv_row in append mode). */
  lemma RowsSnoc(forms: seq<Form>, f: Form)
    requires AllCollectable(forms)
    requires Collectable(f)
    ensures Rows(forms + [f]) == Rows(forms) + [FinishedRecord(f)]
  {
    assert (forms + [f])[..|forms|] == forms;
  }

  /** What Finish writes for a form, in the order it does: collect the
      record, name the image after the submission id, draw the summary,
      fill the image name into the record and derive the CSV download name. */
  method PrepareExport(f: Form, wrap: Wrapper) returns (e: Exported, marks: seq<Mark>)
    requires WellFormed(f)
    ensures e == ExportOf(f)
    ensures marks == SummaryPage(f, wrap).marks
  {
    var record := Collect(f);
    var imageName := ImageName(record.submissionId);
    var imagePath := ImagePath(imageName);
    var bottom;
    marks, bottom := DrawSummary(f, wrap);
    record := record.(summaryImage := imageName);
    e := Exported(record, imagePath, CsvName(record.submissionId), imageName);
  }

  /** Pairs each option with the flag the widget returned for it. */
  function Ticks(keys: seq<string>, flags: seq<bool>): (m: CheckMap)
    requires |flags| == |keys|
    ensures KeyedBy(m, keys)
    ensures forall i :: 0 <= i < |m| ==> m[i].1 == flags[i]
  {
    seq(|keys|, i requires 0 <= i < |keys| => (keys[i], flags[i]))
  }

  /** The check-box loop of a page: for each option in order, d[option] =
      the widget's flag. On a map keyed by the distinct options it yields
      exactly the options paired with the flags. */
  method WriteChecks(boxes: CheckMap, keys: seq<string>, flags: seq<bool>) returns (r: CheckMap)
    requires KeyedBy(boxes, keys) && Distinct(keys) && |flags| == |keys|
    ensures r == Ticks(keys, flags)
  {
    r := boxes;
    for i := 0 to |keys|
      invariant KeyedBy(r, keys)
      invariant forall j :: 0 <= j < |keys| ==> r[j] == (if j < i then (keys[j], flags[j]) else boxes[j])
    {
      SetKeyed(r, keys, i, flags[i]);
      r := Set(r, keys[i], flags[i]);
    }
  }

  /** The slider loop of the animal page: for each animal type in order,
      animals[type] = the slider's value. The keys stay the same and each
      type gets its own value. */
  method WriteSeverities(animals: map<string, int>, levels: seq<int>) returns (r: map<string, int>)
    requires SeveritiesOk(animals) && |levels| == |ANIMAL_TYPES|
    requires forall i :: 0 <= i < |levels| ==> 0 <= levels[i] <= SEVERITY_MAX
    ensures SeveritiesOk(r)
    ensures forall i :: 0 <= i < |ANIMAL_TYPES| ==> r[ANIMAL_TYPES[i]] == levels[i]
  {
    ReferenceListsDistinct();
    r := animals;
    for i := 0 to |ANIMAL_TYPES|
      invariant SeveritiesOk(r)
      invariant forall j :: 0 <= j < i ==> r[ANIMAL_TYPES[j]] == levels[j]
    {
      r := r[ANIMAL_TYPES[i] := levels[i]];
    }
  }

  class Session {
    var mode: Mode
    var step: int
    var form: Form
    /** The forms this session exported, oldest first: the rows it appended
        to the CSV file are Rows(exported), and the images it saved are at
        ExportOf(form).imagePath for each form. The file may also hold rows of
        earlier sessions, and a repeated id overwrites its image. */
    var exported: seq<Form>
    /** The form of the last export: the export page offers ExportOf of it
        for download. It stays in the session after Done until the next Finish. */
    var lastExported: Option<Form>

    /** The session invariant: steps run over 0..11 and only in New mode
        leave 0; the form keeps its shape and every exported form can be collected; the last
        export is the last form exported; and on the export page it is the
        current form. */
    ghost predicate Valid()
      reads this
    {
      && 0 <= step <= DONE_PAGE
      && (mode != New ==> step == 0)
      && WellFormed(form)
      && AllCollectable(exported)
      && lastExported == (if exported == [] then None else Some(exported[|exported| - 1]))
      && (step == DONE_PAGE ==> lastExported == Some(form))
    }

    /** init_session() on the first run: the splash screen, step 0, a blank form. */
    constructor(today: string)
      ensures Valid()
      ensures mode == Splash && step == 0 && form == DefaultForm(today)
      ensures exported == [] && lastExported == None
    {
      mode := Splash;
      step := 0;
      form := DefaultForm(today);
      exported := [];
      lastExported := None;
    }

    /** reset_to_splash(): back to the splash screen with a blank form; what
        was saved and the last export stay. */
    method ResetToSplash(today: string)
      requires Valid()
      modifies this
      ensures Valid()
      ensures mode == Splash && step == 0 && form == DefaultForm(today)
      ensures exported == old(exported) && lastExported == old(lastExported)
    {
      mode := Splash;
      step := 0;
      form := DefaultForm(today);
    }

    // ---------- buttons ----------

    /** "Create new", offered on the splash screen: the wizard at step 0. */
    method CreateNew() returns (handled: bool)
      requires Valid()
      modifies this
      ensures Valid()
      ensures handled <==> old(mode) == Splash
      ensures handled ==> mode == New && step == 0
      ensures !handled ==> mode == old(mode) && step == old(step)
      ensures form == old(form) && exported == old(exported) && lastExported == old(lastExported)
    {
      if mode != Splash {
        return false;
      }
      mode := New;
      step := 0;
      return true;
    }

    /** "View previous", offered on the splash screen. */
    method ViewPrevious() returns (handled: bool)
      requires Valid()
      modifies this
      ensures Valid()
      ensures handled <==> old(mode) == Splash
      ensures handled ==> mode == View
      ensures !handled ==> mode == old(mode)
      ensures step == old(step) && form == old(form)
      ensures exported == old(exported) && lastExported == old(lastExported)
    {
      if mode != Splash {
        return false;
      }
      mode := View;
      return true;
    }

    /** "Back to home", offered in view mode. */
    method BackToHome(today: string) returns (handled: bool)
      requires Valid()
      modifies this
      ensures Valid()
      ensures handled <==> old(mode) == View
      ensures handled ==> mode == Splash && step == 0 && form == DefaultForm(today)
      ensures !handled ==> mode == old(mode) && step == old(step) && form == old(form)
      ensures exported == old(exported) && lastExported == old(lastExported)
    {
      if mode != View {
        return false;
      }
      ResetToSplash(today);
      return true;
    }

    /** "Done (Back to home)", offered on the export page. */
    method Done(today: string) returns (handled: bool)
      requires Valid()
      modifies this
      ensures Valid()
      ensures handled <==> old(mode) == New && old(step) == DONE_PAGE
      ensures handled ==> mode == Splash && step == 0 && form == DefaultForm(today)
      ensures !handled ==> mode == old(mode) && step == old(step) && form == old(form)
      ensures exported == old(exported) && lastExported == old(lastExported)
    {
      if !(mode == New && step == DONE_PAGE) {
        return false;
      }
      ResetToSplash(today);
      return true;
    }

    /** "Back", shown below every content page and disabled on the first. */
    method Back() returns (handled: bool)
      requires Valid()
      modifies this
      ensures Valid()
      ensures handled <==> old(mode) == New && 0 < old(step) <= LAST_PAGE
      ensures handled ==> step == old(step) - 1
      ensures !handled ==> step == old(step)
      ensures mode == old(mode) && form == old(form)
      ensures exported == old(exported) && lastExported == old(lastExported)
    {
      if !(mode == New && step < DONE_PAGE && step != 0) {
        return false;
      }
      step := if step - 1 < 0 then 0 else step - 1;
      return true;
    }

    /** "Next", shown below the content pages before the last. It does not
        check the page: it always advances. */
    method Next() returns (handled: bool)
      requires Valid()
      modifies this
      ensures Valid()
      ensures handled <==> old(mode) == New && old(step) < LAST_PAGE
      ensures handled ==> step == old(step) + 1
      ensures !handled ==> step == old(step)
      ensures mode == old(mode) && form == old(form)
      ensures exported == old(exported) && lastExported == old(lastExported)
    {
      if !(mode == New && step < LAST_PAGE) {
        return false;
      }
      step := if step + 1 > LAST_PAGE then LAST_PAGE else step + 1;
      return true;
    }

    /** "Finish & Export", shown on the last content page: exports the
        current form (its CSV row is appended and its summary image saved,
        as PrepareExport computes them), keeps it as the last export and
        moves to the export page. */
    method Finish() returns (handled: bool)
      requires Valid()
      modifies this
      ensures Valid()
      ensures handled <==> old(mode) == New && old(step) == LAST_PAGE
      ensures handled ==>
        && step == DONE_PAGE
        && exported == old(exported) + [old(form)]
        && lastExported == Some(old(form))
      ensures !handled ==> step == old(step) && exported == old(exported) && lastExported == old(lastExported)
      ensures mode == old(mode) && form == old(form)
    {
      if !(mode == New && step == LAST_PAGE) {
        return false;
      }
      exported := exported + [form];
      lastExported := Some(form);
      step := DONE_PAGE;
      return true;
    }

    // ---------- the widgets of the content pages ----------

    predicate OnPage(p: int)
      reads this
    {
      mode == New && step == p
    }

    /** Page 0: the date and the site. */
    method SetDetails(date: string, site: string) returns (handled: bool)
      requires Valid()
      modifies this
      ensures Valid()
      ensures handled <==> old(OnPage(0))
      ensures handled ==> form == old(form).(date := date, site := site)
      ensures !handled ==> form == old(form)
      ensures mode == old(mode) && step == old(step)
      ensures exported == old(exported) && lastExported == old(lastExported)
    {
      if !OnPage(0) {
        return false;
      }
      form := form.(date := date);
      form := form.(site := site);
      return true;
    }

    /** Pages 1, 2, 3, 4 and 6: one check box per option of the group,
        each written back into the group's map in option order. */
    method SetChecks(g: Group, flags: seq<bool>) returns (handled: bool)
      requires Valid() && |flags| == |Options(g)|
      modifies this
      ensures Valid()
      ensures handled <==> old(OnPage(GroupPage(g)))
      ensures handled ==> form == WithBoxes(old(form), g, Ticks(Options(g), flags))
      ensures !handled ==> form == old(form)
      ensures mode == old(mode) && step == old(step)
      ensures exported == old(exported) && lastExported == old(lastExported)
    {
      if !OnPage(GroupPage(g)) {
        return false;
      }
      ReferenceListsDistinct();
      WellFormedBoxes(form, g);
      var boxes := WriteChecks(Boxes(form, g), Options(g), flags);
      WithBoxesWellFormed(form, g, boxes);
      form := WithBoxes(form, g, boxes);
      return true;
    }

    /** Pages 1 and 2: the free-text box, shown only while "Other" is ticked. */
    method SetOtherText(g: Group, text: string) returns (handled: bool)
      requires Valid() && (g == Vegetation || g == DominantSpecies)
      modifies this
      ensures Valid()
      ensures handled <==> old(OnPage(GroupPage(g))) && Get(old(Boxes(form, g)), OTHER)
      ensures handled && g == Vegetation ==> form == old(form).(vegetationOther := text)
      ensures handled && g == DominantSpecies ==> form == old(form).(dominantOther := text)
      ensures !handled ==> form == old(form)
      ensures mode == old(mode) && step == old(step)
      ensures exported == old(exported) && lastExported == old(lastExported)
    {
      if !(OnPage(GroupPage(g)) && Get(Boxes(form, g), OTHER)) {
        return false;
      }
      if g == Vegetation {
        form := form.(vegetationOther := text);
      } else {
        form := form.(dominantOther := text);
      }
      return true;
    }

    /** Page 5: the two fire radios; each returns one of its options. */
    method SetFire(presence: string, intensity: string) returns (handled: bool)
      requires Valid() && presence in FIRE_PRESENCE && intensity in FIRE_INTENSITY
      modifies this
      ensures Valid()
      ensures handled <==> old(OnPage(5))
      ensures handled ==> form == old(form).(firePresence := presence, fireIntensity := intensity)
      ensures !handled ==> form == old(form)
      ensures mode == old(mode) && step == old(step)
      ensures exported == old(exported) && lastExported == old(lastExported)
    {
      if !OnPage(5) {
        return false;
      }
      form := form.(firePresence := presence);
      form := form.(fireIntensity := intensity);
      return true;
    }

    /** Page 6: the two surface check boxes. */
    method SetSurface(coarse: bool, rock: bool) returns (handled: bool)
      requires Valid()
      modifies this
      ensures Valid()
      ensures handled <==> old(OnPage(6))
      ensures handled ==> form == old(form).(coarseSurface := coarse, rockOutcrop := rock)
      ensures !handled ==> form == old(form)
      ensures mode == old(mode) && step == old(step)
      ensures exported == old(exported) && lastExported == old(lastExported)
    {
      if !OnPage(6) {
        return false;
      }
      form := form.(coarseSurface := coarse);
      form := form.(rockOutcrop := rock);
      return true;
    }

    /** Page 7: the dieback and drought radios and the stressed taxa. */
    method SetStress(dieback: string, drought: string, taxa: string) returns (handled: bool)
      requires Valid() && dieback in DIEBACK && drought in DROUGHT_STRESS
      modifies this
      ensures Valid()
      ensures handled <==> old(OnPage(7))
      ensures handled ==> form == old(form).(dieback := dieback, droughtStress := drought, stressedTaxa := taxa)
      ensures !handled ==> form == old(form)
      ensures mode == old(mode) && step == old(step)
      ensures exported == old(exported) && lastExported == old(lastExported)
    {
      if !OnPage(7) {
        return false;
      }
      form := form.(dieback := dieback);
      form := form.(droughtStress := drought);
      form := form.(stressedTaxa := taxa);
      return true;
    }

    /** Page 8: the weed species, extent and percentage; the number input
        only yields 0..100. */
    method SetWeeds(species: string, extent: string, percent: int) returns (handled: bool)
      requires Valid() && 0 <= percent <= 100
      modifies this
      ensures Valid()
      ensures handled <==> old(OnPage(8))
      ensures handled ==> form == old(form).(weedsSpecies := species, weedsExtentDensity := extent, weedsPercent := percent)
      ensures !handled ==> form == old(form)
      ensures mode == old(mode) && step == old(step)
      ensures exported == old(exported) && lastExported == old(lastExported)
    {
      if !OnPage(8) {
        return false;
      }
      form := form.(weedsSpecies := species);
      form := form.(weedsExtentDensity := extent);
      form := form.(weedsPercent := percent);
      return true;
    }

    /** Page 9: one slider per animal type, each yielding 0..3, written into
        the severities in type order. */
    method SetSeverities(levels: seq<int>) returns (handled: bool)
      requires Valid() && |levels| == |ANIMAL_TYPES|
      requires forall i :: 0 <= i < |levels| ==> 0 <= levels[i] <= SEVERITY_MAX
      modifies this
      ensures Valid()
      ensures handled <==> old(OnPage(9))
      ensures handled ==>
        && form == old(form).(animals := form.animals)
        && form.animals.Keys == ANIMAL_KEYS
        && (forall i :: 0 <= i < |ANIMAL_TYPES| ==> form.animals[ANIMAL_TYPES[i]] == levels[i])
      ensures !handled ==> form == old(form)
      ensures mode == old(mode) && step == old(step)
      ensures exported == old(exported) && lastExported == old(lastExported)
    {
      if !OnPage(9) {
        return false;
      }
      var animals := WriteSeverities(form.animals, levels);
      form := form.(animals := animals);
      return true;
    }

    /** Page 9: the note box, shown only while the Other feral severity is above 0. */
    method SetFeralNote(text: string) returns (handled: bool)
      requires Valid()
      modifies this
      ensures Valid()
      ensures handled <==> old(OnPage(9)) && old(form.animals[OTHER_FERAL]) > 0
      ensures handled ==> form == old(form).(animalsOtherText := text)
      ensures !handled ==> form == old(form)
      ensures mode == old(mode) && step == old(step)
      ensures exported == old(exported) && lastExported == old(lastExported)
    {
      if !(OnPage(9) && form.animals[OTHER_FERAL] > 0) {
        return false;
      }
      form := form.(animalsOtherText := text);
      return true;
    }

    /** Page 10: the comments. */
    method SetComments(text: string) returns (handled: bool)
      requires Valid()
      modifies this
      ensures Valid()
      ensures handled <==> old(OnPage(LAST_PAGE))
      ensures handled ==> form == old(form).(otherComments := text)
      ensures !handled ==> form == old(form)
      ensures mode == old(mode) && step == old(step)
      ensures exported == old(exported) && lastExported == old(lastExported)
    {
      if !OnPage(LAST_PAGE) {
        return false;
      }
      form := form.(otherComments := text);
      return true;
    }
  }
}
