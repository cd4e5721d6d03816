/**
 * The layout of the summary image drawn by draw_summary_image: where each
 * caption, bar frame and bar fill goes on the 1200 x 900 canvas as the
 * cursor `y` moves down the page. The drawing library itself is not
 * modelled; what the model keeps is the list of marks the routine places,
 * in drawing order, and the cursor arithmetic. textwrap.wrap is a parameter.
 */
module Summary {
  import opened Text
  import opened Forms
  import opened Export

  /** textwrap.wrap(text, width): the lines a text is broken into. */
  type Wrapper = (string, nat) -> seq<string>

  const MARGIN: int := 40
  const WRAP_WIDTH: nat := 100
  /** How far a block's heading is above its first bullet line. */
  const HEADING_GAP: int := 30
  /** The height of one bullet line. */
  const LINE_GAP: int := 26
  /** The space left below a block. */
  const BLOCK_PAD: int := 6
  const BULLET: string := "\U{2022} "
  const TITLE: string := "FHMP Flora \U{2013} Site Characteristics Summary"
  const ANIMAL_HEADING: string := "Animal presence (0=None, 1=Light, 2=Moderate, 3=Heavy)"
  /** The left edge of the bullet lines and of the animal rows. */
  const INDENT: int := MARGIN + 20
  const BAR_LEFT: int := INDENT + 280
  const BAR_W: int := 220
  const BAR_H: int := 16
  /** The height of one animal row. */
  const ROW_GAP: int := 24
  /** The prefix the image puts in front of the free-text "Other" entry. */
  const IMAGE_OTHER_LABEL: string := "Other: "
  /** Where the first block starts: below the title and the date line. */
  const FIRST_BLOCK_Y: int := MARGIN + 50 + 36

  /** The four fonts (title 34, heading 26, body 22, small 20); headings are blue. */
  datatype Style = TitleFont | HeadingFont | BodyFont | SmallFont

  /** One thing drawn on the canvas. */
  datatype Mark =
    | Caption(x: int, y: int, text: string, style: Style)
    | Frame(left: int, top: int, right: int, bottom: int)
    | Fill(left: int, top: int, right: int, bottom: int)

  function Top(m: Mark): int {
    match m
    case Caption(_, y, _, _) => y
    case Frame(_, t, _, _) => t
    case Fill(_, t, _, _) => t
  }

  /** Every mark starts at or below `lo` and above `hi`. */
  predicate InBand(ms: seq<Mark>, lo: int, hi: int) {
    forall i :: 0 <= i < |ms| ==> lo <= Top(ms[i]) < hi
  }

  lemma InBandConcat(a: seq<Mark>, b: seq<Mark>, lo: int, mid: int, hi: int)
    requires InBand(a, lo, mid) && InBand(b, mid, hi) && lo <= mid <= hi
    ensures InBand(a + b, lo, hi)
  {
    forall i | 0 <= i < |a + b| ensures lo <= Top((a + b)[i]) < hi {
      if i < |a| {
        assert (a + b)[i] == a[i];
      } else {
        assert (a + b)[i] == b[i - |a|];
      }
    }
  }

  lemma InBandWiden(a: seq<Mark>, lo: int, hi: int, lo': int, hi': int)
    requires InBand(a, lo, hi) && lo' <= lo && hi <= hi'
    ensures InBand(a, lo', hi')
  {
  }

  /** Python's `s or d` on strings. */
  function Or(s: string, d: string): (r: string)
    ensures r != "" <== d != ""
    ensures s != "" ==> r == s
    ensures s == "" ==> r == d
  {
    if s == "" then d else s
  }

  // ---------- print_block ----------

  /** The lines of a block: its text, or "-" when the text is empty, wrapped at 100. */
  function BlockLines(text: string, wrap: Wrapper): seq<string> {
    wrap(Or(text, "-"), WRAP_WIDTH)
  }

  /** One bullet caption per line, 26 apart, starting at `y`. */
  function Bullets(lines: seq<string>, y: int): (ms: seq<Mark>)
    ensures |ms| == |lines|
  {
    seq(|lines|, i requires 0 <= i < |lines| => Caption(INDENT, y + LINE_GAP * i, BULLET + lines[i], BodyFont))
  }

  /** What print_block draws: the heading at `y`, then the bullet lines. */
  function BlockMarks(heading: string, text: string, y: int, wrap: Wrapper): seq<Mark> {
    [Caption(MARGIN, y, heading, HeadingFont)] + Bullets(BlockLines(text, wrap), y + HEADING_GAP)
  }

  /** Where print_block leaves the cursor. */
  function BlockEnd(text: string, y: int, wrap: Wrapper): int {
    y + HEADING_GAP + LINE_GAP * |BlockLines(text, wrap)| + BLOCK_PAD
  }

  /** A block moves the cursor down by 36 plus 26 per line and draws
      nothing outside the strip it moves over. */
  lemma BlockBand(heading: string, text: string, y: int, wrap: Wrapper)
    ensures BlockEnd(text, y, wrap) == y + 36 + 26 * |BlockLines(text, wrap)|
    ensures BlockEnd(text, y, wrap) >= y + 36
    ensures InBand(BlockMarks(heading, text, y, wrap), y, BlockEnd(text, y, wrap))
  {
    var lines := BlockLines(text, wrap);
    var ms := BlockMarks(heading, text, y, wrap);
    forall i | 0 <= i < |ms| ensures y <= Top(ms[i]) < BlockEnd(text, y, wrap) {
      if i > 0 {
        assert ms[i] == Bullets(lines, y + HEADING_GAP)[i - 1];
      }
    }
  }

  /** print_block(header, text, y): draws the heading, one bullet line per
      wrapped line, and returns the new cursor. */
  method PrintBlock(heading: string, text: string, y: int, wrap: Wrapper) returns (y': int, marks: seq<Mark>)
    ensures marks == BlockMarks(heading, text, y, wrap)
    ensures y' == BlockEnd(text, y, wrap)
  {
    marks := [Caption(MARGIN, y, heading, HeadingFont)];
    var cur := y + HEADING_GAP;
    var lines := wrap(Or(text, "-"), WRAP_WIDTH);
    for i := 0 to |lines|
      invariant cur == y + HEADING_GAP + LINE_GAP * i
      invariant |marks| == i + 1 && marks[0] == Caption(MARGIN, y, heading, HeadingFont)
      invariant forall j :: 0 <= j < i ==>
        marks[j + 1] == Caption(INDENT, y + HEADING_GAP + LINE_GAP * j, BULLET + lines[j], BodyFont)
    {
      marks := marks + [Caption(INDENT, cur, BULLET + lines[i], BodyFont)];
      cur := cur + LINE_GAP;
    }
    assert marks == BlockMarks(heading, text, y, wrap);
    y' := cur + BLOCK_PAD;
  }

  // ---------- join_selected ----------

  /** join_selected(d, other_key, other_text): like the record's columns but
      the free-text entry reads "Other: " with a space. With nothing ticked it
      is "", which print_block shows as "-". */
  function JoinSelected(d: CheckMap, otherKey: Option<string>, otherText: string): (r: string)
    ensures NoneTicked(d) ==> r == ""
  {
    var r := Join(SEPARATOR, Choices(d, otherKey, otherText, IMAGE_OTHER_LABEL));
    assert NoneTicked(d) ==> r == "" by {
      if NoneTicked(d) { TickedNone(d, otherKey); }
    }
    r
  }

  /** The image and the record list the same vegetation entries in the same
      order; they differ only in the prefix of the free-text entry. */
  lemma JoinSelectedMatchesRecord(d: CheckMap, otherText: string)
    ensures var a := Choices(d, Some(OTHER), otherText, RECORD_OTHER_LABEL);
      var b := Choices(d, Some(OTHER), otherText, IMAGE_OTHER_LABEL);
      && |a| == |b|
      && (forall i :: 0 <= i < |a| - 1 ==> a[i] == b[i])
      && (a != [] ==> a[|a| - 1] == b[|b| - 1]
                      || (a[|a| - 1] == RECORD_OTHER_LABEL + PyStrip(otherText)
                          && b[|b| - 1] == IMAGE_OTHER_LABEL + PyStrip(otherText)))
  {
    var sel := Ticked(d, Some(OTHER));
    var a := Choices(d, Some(OTHER), otherText, RECORD_OTHER_LABEL);
    var b := Choices(d, Some(OTHER), otherText, IMAGE_OTHER_LABEL);
    assert OTHER != "";
    if Get(d, OTHER) && PyStrip(otherText) != "" {
      assert a == sel + [RECORD_OTHER_LABEL + PyStrip(otherText)];
      assert b == sel + [IMAGE_OTHER_LABEL + PyStrip(otherText)];
    } else {
      assert a == sel && b == sel;
    }
  }

  /** With "Other" unticked or its text blank, the image's list is the record's, character for character. */
  lemma JoinSelectedSameWithoutOther(d: CheckMap, otherText: string)
    requires !Get(d, OTHER) || PyStrip(otherText) == ""
    ensures JoinSelected(d, Some(OTHER), otherText) == JoinWithOther(d, otherText)
  {
  }

  // ---------- the animal bars ----------

  /** int((v / 3.0) * 220), in exact arithmetic truncated toward zero. */
  function BarFill(v: int): (r: int)
    ensures 0 <= v <= SEVERITY_MAX ==> 0 <= r <= BAR_W
    ensures (r == 0) == (v == 0)
  {
    if v >= 0 then v * BAR_W / 3 else -((-v) * BAR_W / 3)
  }

  /** The four severities fill 0, 73, 146 and 220 pixels of the bar. */
  lemma BarFillSeverities()
    ensures BarFill(0) == 0 && BarFill(1) == 73 && BarFill(2) == 146 && BarFill(3) == BAR_W
  {
  }

  /** A severity in 0..3 never fills past the frame, and more severe means more filled. */
  lemma BarFillWithinFrame(v: int, w: int)
    requires 0 <= v <= w <= SEVERITY_MAX
    ensures 0 <= BarFill(v) <= BarFill(w) <= BAR_W
  {
  }

  /** One animal row at `y`: its name, the bar frame, the fill and the value. */
  function AnimalRow(name: string, v: int, y: int): seq<Mark> {
    [Caption(INDENT, y - 2, name, SmallFont),
     Frame(BAR_LEFT, y, BAR_LEFT + BAR_W, y + BAR_H),
     Fill(BAR_LEFT, y, BAR_LEFT + BarFill(v), y + BAR_H),
     Caption(BAR_LEFT + BAR_W + 10, y - 2, IntToString(v), SmallFont)]
  }

  /** The rows for `names`, 24 apart, starting at `y`. */
  function AnimalRows(animals: map<string, int>, names: seq<string>, y: int): (ms: seq<Mark>)
    requires forall i :: 0 <= i < |names| ==> names[i] in animals
    ensures |ms| == 4 * |names|
  {
    if names == [] then [] else AnimalRow(names[0], animals[names[0]], y) + AnimalRows(animals, names[1..], y + ROW_GAP)
  }

  /** Adding one more name adds its row 24 pixels below the last. */
  lemma {:induction false} AnimalRowsSnoc(animals: map<string, int>, names: seq<string>, a: string, y: int)
    requires forall i :: 0 <= i < |names| ==> names[i] in animals
    requires a in animals
    ensures AnimalRows(animals, names + [a], y)
         == AnimalRows(animals, names, y) + AnimalRow(a, animals[a], y + ROW_GAP * |names|)
  {
    if names == [] {
      assert names + [a] == [a];
    } else {
      var r0 := AnimalRow(names[0], animals[names[0]], y);
      var last := AnimalRow(a, animals[a], y + ROW_GAP * |names|);
      assert (names + [a])[1..] == names[1..] + [a];
      AnimalRowsSnoc(animals, names[1..], a, y + ROW_GAP);
      calc {
        AnimalRows(animals, names + [a], y);
        r0 + AnimalRows(animals, names[1..] + [a], y + ROW_GAP);
        r0 + (AnimalRows(animals, names[1..], y + ROW_GAP) + last);
        (r0 + AnimalRows(animals, names[1..], y + ROW_GAP)) + last;
      }
    }
  }

  /** The rows stay in the strip from two pixels above the first to two above the next. */
  lemma {:induction false} AnimalRowsBand(animals: map<string, int>, names: seq<string>, y: int)
    requires forall i :: 0 <= i < |names| ==> names[i] in animals
    ensures InBand(AnimalRows(animals, names, y), y - 2, y - 2 + ROW_GAP * |names|)
  {
    if names != [] {
      var row := AnimalRow(names[0], animals[names[0]], y);
      assert InBand(row, y - 2, y - 2 + ROW_GAP);
      AnimalRowsBand(animals, names[1..], y + ROW_GAP);
      InBandConcat(row, AnimalRows(animals, names[1..], y + ROW_GAP), y - 2, y - 2 + ROW_GAP, y - 2 + ROW_GAP * |names|);
    }
  }

  /** The Other feral note is drawn when that severity is non-zero and the note is not empty. */
  predicate HasFeralNote(animals: map<string, int>, otherText: string)
    requires OTHER_FERAL in animals
  {
    animals[OTHER_FERAL] != 0 && otherText != ""
  }

  function FeralNote(animals: map<string, int>, otherText: string, y: int): seq<Mark>
    requires OTHER_FERAL in animals
  {
    if HasFeralNote(animals, otherText) then [Caption(INDENT, y, "Other feral notes: " + otherText, SmallFont)] else []
  }

  /** What the animal section draws: its heading, one row per animal type,
      then the Other feral note if any. */
  function AnimalMarks(animals: map<string, int>, otherText: string, y: int): seq<Mark>
    requires ANIMAL_KEYS <= animals.Keys
  {
    var rowsY := y + HEADING_GAP;
    [Caption(MARGIN, y, ANIMAL_HEADING, HeadingFont)]
      + AnimalRows(animals, ANIMAL_TYPES, rowsY)
      + FeralNote(animals, otherText, rowsY + ROW_GAP * |ANIMAL_TYPES|)
  }

  /** Where the animal section leaves the cursor. */
  function AnimalEnd(animals: map<string, int>, otherText: string, y: int): int
    requires ANIMAL_KEYS <= animals.Keys
  {
    y + HEADING_GAP + ROW_GAP * |ANIMAL_TYPES| + (if HasFeralNote(animals, otherText) then ROW_GAP else 0)
  }

  lemma AnimalTypesKnown(animals: map<string, int>)
    requires ANIMAL_KEYS <= animals.Keys
    ensures forall i :: 0 <= i < |ANIMAL_TYPES| ==> ANIMAL_TYPES[i] in animals
    ensures |ANIMAL_TYPES| == 5 && OTHER_FERAL in animals
  {
    assert ANIMAL_TYPES[4] == OTHER_FERAL;
  }

  /** The animal section is 150 pixels tall, 174 with the Other feral note,
      and draws nothing outside that strip. */
  lemma AnimalBand(animals: map<string, int>, otherText: string, y: int)
    requires ANIMAL_KEYS <= animals.Keys
    ensures AnimalEnd(animals, otherText, y) == y + 150 + (if HasFeralNote(animals, otherText) then 24 else 0)
    ensures InBand(AnimalMarks(animals, otherText, y), y, AnimalEnd(animals, otherText, y))
  {
    AnimalTypesKnown(animals);
    var rowsY := y + HEADING_GAP;
    var head := [Caption(MARGIN, y, ANIMAL_HEADING, HeadingFont)];
    var rows := AnimalRows(animals, ANIMAL_TYPES, rowsY);
    var noteY := rowsY + ROW_GAP * |ANIMAL_TYPES|;
    var note := FeralNote(animals, otherText, noteY);
    var end := AnimalEnd(animals, otherText, y);
    AnimalRowsBand(animals, ANIMAL_TYPES, rowsY);
    assert InBand(head, y, rowsY - 2);
    InBandConcat(head, rows, y, rowsY - 2, noteY - 2);
    InBandWiden(head + rows, y, noteY - 2, y, noteY);
    assert InBand(note, noteY, end);
    InBandConcat(head + rows, note, y, noteY, end);
  }

  /** The animal section: a heading, a loop over the animal types drawing
      each name, its bar and its value 24 pixels apart, then the note. */
  method AnimalSection(animals: map<string, int>, otherText: string, y: int) returns (y': int, marks: seq<Mark>)
    requires ANIMAL_KEYS <= animals.Keys
    ensures marks == AnimalMarks(animals, otherText, y)
    ensures y' == AnimalEnd(animals, otherText, y)
  {
    AnimalTypesKnown(animals);
    marks := [Caption(MARGIN, y, ANIMAL_HEADING, HeadingFont)];
    var cur := y + HEADING_GAP;
    for i := 0 to |ANIMAL_TYPES|
      invariant cur == y + HEADING_GAP + ROW_GAP * i
      invariant marks == [Caption(MARGIN, y, ANIMAL_HEADING, HeadingFont)]
                         + AnimalRows(animals, ANIMAL_TYPES[..i], y + HEADING_GAP)
    {
      var a := ANIMAL_TYPES[i];
      AnimalRowsSnoc(animals, ANIMAL_TYPES[..i], a, y + HEADING_GAP);
      assert ANIMAL_TYPES[..i + 1] == ANIMAL_TYPES[..i] + [a];
      marks := marks + AnimalRow(a, animals[a], cur);
      cur := cur + ROW_GAP;
    }
    assert ANIMAL_TYPES[..|ANIMAL_TYPES|] == ANIMAL_TYPES;
    if animals[OTHER_FERAL] != 0 && otherText != "" {
      marks := marks + [Caption(INDENT, cur, "Other feral notes: " + otherText, SmallFont)];
      cur := cur + ROW_GAP;
    }
    y' := cur;
  }

  // ---------- the whole page ----------

  function YesNo(b: bool): string {
    if b then "Yes" else "No"
  }

  function DateLine(f: Form): string {
    "Date: " + f.date + "     Site: " + f.site
  }

  function FireText(f: Form): string {
    "Presence: " + f.firePresence + " | Intensity: " + f.fireIntensity
  }

  function SurfaceText(f: Form): string {
    "Coarse surface: " + YesNo(f.coarseSurface) + "; "
      + "Rock outcrop: " + YesNo(f.rockOutcrop) + "; "
      + "Soil colour: " + Join(", ", Ticked(f.soilColour, None)) + "; "
      + "Soil type: " + Join(", ", Ticked(f.soilType, None))
  }

  function StressText(f: Form): string {
    "Dieback: " + f.dieback + "; Drought: " + f.droughtStress + "; "
      + "Stressed taxa: " + Or(f.stressedTaxa, "-")
  }

  function WeedsText(f: Form): string {
    "Species: " + Or(f.weedsSpecies, "-") + "; "
      + "Extent/Density: " + Or(f.weedsExtentDensity, "-") + "; "
      + "% weeds: " + IntToString(f.weedsPercent) + "%"
  }

  /** The marks drawn so far and the cursor. */
  datatype Page = Page(marks: seq<Mark>, y: int)

  /** The page after print_block has drawn one more block at the cursor. */
  function PlaceBlock(p: Page, heading: string, text: string, wrap: Wrapper): Page {
    Page(p.marks + BlockMarks(heading, text, p.y, wrap), BlockEnd(text, p.y, wrap))
  }

  /** A block moves the cursor down by at least 36 and keeps every mark
      between the top and the cursor. */
  lemma PlaceBlockBand(p: Page, lo: int, heading: string, text: string, wrap: Wrapper)
    requires lo <= p.y && InBand(p.marks, lo, p.y)
    ensures PlaceBlock(p, heading, text, wrap).y >= p.y + 36
    ensures InBand(PlaceBlock(p, heading, text, wrap).marks, lo, PlaceBlock(p, heading, text, wrap).y)
  {
    BlockBand(heading, text, p.y, wrap);
    InBandConcat(p.marks, BlockMarks(heading, text, p.y, wrap), lo, p.y, BlockEnd(text, p.y, wrap));
  }

  /** The title, the date line and the eight blocks above the animal section. */
  function UpperPage(f: Form, wrap: Wrapper): Page {
    var p0 := Page([Caption(MARGIN, MARGIN, TITLE, TitleFont), Caption(MARGIN, MARGIN + 50, DateLine(f), BodyFont)],
                   FIRST_BLOCK_Y);
    var p1 := PlaceBlock(p0, "Vegetation", JoinSelected(f.vegetation, Some(OTHER), f.vegetationOther), wrap);
    var p2 := PlaceBlock(p1, "Dominant species", JoinSelected(f.dominantSpecies, Some(OTHER), f.dominantOther), wrap);
    var p3 := PlaceBlock(p2, "Landform morphology", Join(SEPARATOR, Ticked(f.landform, None)), wrap);
    var p4 := PlaceBlock(p3, "Water features", Join(SEPARATOR, Ticked(f.waterFeatures, None)), wrap);
    var p5 := PlaceBlock(p4, "Fire", FireText(f), wrap);
    var p6 := PlaceBlock(p5, "Surface & Soils", SurfaceText(f), wrap);
    var p7 := PlaceBlock(p6, "Dieback & Drought stress", StressText(f), wrap);
    PlaceBlock(p7, "Weeds", WeedsText(f), wrap)
  }

  /** The page after the animal section, the 10-pixel gap and the comments block. */
  function LowerPage(p: Page, f: Form, wrap: Wrapper): Page
    requires ANIMAL_KEYS <= f.animals.Keys
  {
    var withAnimals := Page(p.marks + AnimalMarks(f.animals, f.animalsOtherText, p.y),
                            AnimalEnd(f.animals, f.animalsOtherText, p.y) + 10);
    PlaceBlock(withAnimals, "Other comments", f.otherComments, wrap)
  }

  /** Everything draw_summary_image places, in drawing order, and where the cursor ends. */
  function SummaryPage(f: Form, wrap: Wrapper): Page
    requires ANIMAL_KEYS <= f.animals.Keys
  {
    LowerPage(UpperPage(f, wrap), f, wrap)
  }

  /** The upper part ends at least 8 * 36 below the first block and draws
      nothing above the top margin or below its cursor. */
  lemma UpperPageBand(f: Form, wrap: Wrapper)
    ensures UpperPage(f, wrap).y >= FIRST_BLOCK_Y + 8 * 36
    ensures InBand(UpperPage(f, wrap).marks, MARGIN, UpperPage(f, wrap).y)
  {
    var p0 := Page([Caption(MARGIN, MARGIN, TITLE, TitleFont), Caption(MARGIN, MARGIN + 50, DateLine(f), BodyFont)],
                   FIRST_BLOCK_Y);
    var p1 := PlaceBlock(p0, "Vegetation", JoinSelected(f.vegetation, Some(OTHER), f.vegetationOther), wrap);
    var p2 := PlaceBlock(p1, "Dominant species", JoinSelected(f.dominantSpecies, Some(OTHER), f.dominantOther), wrap);
    var p3 := PlaceBlock(p2, "Landform morphology", Join(SEPARATOR, Ticked(f.landform, None)), wrap);
    var p4 := PlaceBlock(p3, "Water features", Join(SEPARATOR, Ticked(f.waterFeatures, None)), wrap);
    var p5 := PlaceBlock(p4, "Fire", FireText(f), wrap);
    var p6 := PlaceBlock(p5, "Surface & Soils", SurfaceText(f), wrap);
    var p7 := PlaceBlock(p6, "Dieback & Drought stress", StressText(f), wrap);
    assert InBand(p0.marks, MARGIN, p0.y);
    PlaceBlockBand(p0, MARGIN, "Vegetation", JoinSelected(f.vegetation, Some(OTHER), f.vegetationOther), wrap);
    PlaceBlockBand(p1, MARGIN, "Dominant species", JoinSelected(f.dominantSpecies, Some(OTHER), f.dominantOther), wrap);
    PlaceBlockBand(p2, MARGIN, "Landform morphology", Join(SEPARATOR, Ticked(f.landform, None)), wrap);
    PlaceBlockBand(p3, MARGIN, "Water features", Join(SEPARATOR, Ticked(f.waterFeatures, None)), wrap);
    PlaceBlockBand(p4, MARGIN, "Fire", FireText(f), wrap);
    PlaceBlockBand(p5, MARGIN, "Surface & Soils", SurfaceText(f), wrap);
    PlaceBlockBand(p6, MARGIN, "Dieback & Drought stress", StressText(f), wrap);
    PlaceBlockBand(p7, MARGIN, "Weeds", WeedsText(f), wrap);
  }

  /** The lower part moves the cursor down by at least 150 + 10 + 36 and
      draws below the cursor it starts from. */
  lemma LowerPageBand(p: Page, f: Form, wrap: Wrapper)
    requires ANIMAL_KEYS <= f.animals.Keys
    requires MARGIN <= p.y && InBand(p.marks, MARGIN, p.y)
    ensures LowerPage(p, f, wrap).y >= p.y + 150 + 10 + 36
    ensures InBand(LowerPage(p, f, wrap).marks, MARGIN, LowerPage(p, f, wrap).y)
  {
    var end := AnimalEnd(f.animals, f.animalsOtherText, p.y);
    var withAnimals := Page(p.marks + AnimalMarks(f.animals, f.animalsOtherText, p.y), end + 10);
    AnimalBand(f.animals, f.animalsOtherText, p.y);
    InBandConcat(p.marks, AnimalMarks(f.animals, f.animalsOtherText, p.y), MARGIN, p.y, end);
    InBandWiden(withAnimals.marks, MARGIN, end, MARGIN, end + 10);
    PlaceBlockBand(withAnimals, MARGIN, "Other comments", f.otherComments, wrap);
  }

  /** The page is drawn top to bottom: every mark lies between the top
      margin and the final cursor, which is at least 610 pixels down since
      each of the nine blocks takes 36, the animal section 150 and the gap
      before the comments 10. */
  lemma SummaryBand(f: Form, wrap: Wrapper)
    requires ANIMAL_KEYS <= f.animals.Keys
    ensures SummaryPage(f, wrap).y >= FIRST_BLOCK_Y + 9 * 36 + 150 + 10
    ensures InBand(SummaryPage(f, wrap).marks, MARGIN, SummaryPage(f, wrap).y)
  {
    UpperPageBand(f, wrap);
    LowerPageBand(UpperPage(f, wrap), f, wrap);
  }

  /** The first part of draw_summary_image: the title, the date line and the
      eight print_block calls, each starting at the cursor the last one returned. */
  method DrawUpper(f: Form, wrap: Wrapper) returns (marks: seq<Mark>, y: int)
    ensures Page(marks, y) == UpperPage(f, wrap)
  {
    marks := [Caption(MARGIN, MARGIN, TITLE, TitleFont)];
    y := MARGIN + 50;
    marks := marks + [Caption(MARGIN, y, DateLine(f), BodyFont)];
    y := y + 36;
    ghost var p0 := Page([Caption(MARGIN, MARGIN, TITLE, TitleFont), Caption(MARGIN, MARGIN + 50, DateLine(f), BodyFont)],
                         FIRST_BLOCK_Y);
    assert Page(marks, y) == p0;
    var ms: seq<Mark>;
    var vegetation := JoinSelected(f.vegetation, Some(OTHER), f.vegetationOther);
    y, ms := PrintBlock("Vegetation", vegetation, y, wrap);
    marks := marks + ms;
    ghost var p1 := PlaceBlock(p0, "Vegetation", vegetation, wrap);
    assert Page(marks, y) == p1;
    var dominant := JoinSelected(f.dominantSpecies, Some(OTHER), f.dominantOther);
    y, ms := PrintBlock("Dominant species", dominant, y, wrap);
    marks := marks + ms;
    ghost var p2 := PlaceBlock(p1, "Dominant species", dominant, wrap);
    assert Page(marks, y) == p2;
    var landform := Join(SEPARATOR, Ticked(f.landform, None));
    y, ms := PrintBlock("Landform morphology", landform, y, wrap);
    marks := marks + ms;
    ghost var p3 := PlaceBlock(p2, "Landform morphology", landform, wrap);
    assert Page(marks, y) == p3;
    var water := Join(SEPARATOR, Ticked(f.waterFeatures, None));
    y, ms := PrintBlock("Water features", water, y, wrap);
    marks := marks + ms;
    ghost var p4 := PlaceBlock(p3, "Water features", water, wrap);
    assert Page(marks, y) == p4;
    y, ms := PrintBlock("Fire", FireText(f), y, wrap);
    marks := marks + ms;
    ghost var p5 := PlaceBlock(p4, "Fire", FireText(f), wrap);
    assert Page(marks, y) == p5;
    y, ms := PrintBlock("Surface & Soils", SurfaceText(f), y, wrap);
    marks := marks + ms;
    ghost var p6 := PlaceBlock(p5, "Surface & Soils", SurfaceText(f), wrap);
    assert Page(marks, y) == p6;
    y, ms := PrintBlock("Dieback & Drought stress", StressText(f), y, wrap);
    marks := marks + ms;
    ghost var p7 := PlaceBlock(p6, "Dieback & Drought stress", StressText(f), wrap);
    assert Page(marks, y) == p7;
    y, ms := PrintBlock("Weeds", WeedsText(f), y, wrap);
    marks := marks + ms;
    assert Page(marks, y) == PlaceBlock(p7, "Weeds", WeedsText(f), wrap);
  }

  /** The rest of draw_summary_image, from the cursor the eight blocks left:
      the animal section, a 10-pixel gap and the comments block. */
  method DrawLower(marks0: seq<Mark>, y0: int, f: Form, wrap: Wrapper) returns (marks: seq<Mark>, y: int)
    requires ANIMAL_KEYS <= f.animals.Keys
    ensures Page(marks, y) == LowerPage(Page(marks0, y0), f, wrap)
  {
    var ms: seq<Mark>;
    y, ms := AnimalSection(f.animals, f.animalsOtherText, y0);
    marks := marks0 + ms;
    y := y + 10;
    y, ms := PrintBlock("Other comments", f.otherComments, y, wrap);
    marks := marks + ms;
  }

  /** draw_summary_image(path, form): everything drawn on the page, in
      order, and the final cursor. */
  method DrawSummary(f: Form, wrap: Wrapper) returns (marks: seq<Mark>, y: int)
    requires ANIMAL_KEYS <= f.animals.Keys
    ensures Page(marks, y) == SummaryPage(f, wrap)
  {
    marks, y := DrawUpper(f, wrap);
    marks, y := DrawLower(marks, y, f, wrap);
  }
}
