# FHMP Flora – Site Characteristics: a verified model

`fhmp_app.py` is a Streamlit field app. It walks a surveyor through eleven
pages of a site-characteristics form, then at "Finish & Export" does three things:

- it flattens the form into a 27-column record;
- it appends the record as a row of `data/site_characteristics.csv`;
- it draws a PNG summary into `summaries/<submission id>.png`.

This project models the parts of that program that have logic in them. It
has five modules:

- **Text** (`text.dfy`) holds the Python string built-ins the app relies on:
  - `re.sub(r'\W+', '_', s)` is `SubNonWord`;
  - `str.strip()` and `str.strip("_")` are `PyStrip` and `Strip(·, IsUnderscore)`;
  - `str.replace('-', '')` is `RemoveAll`;
  - `"; ".join` is `Join`;
  - `str(int)` is `IntToString`.

  On top of these it builds the site sanitiser `Sanitise` and the
  submission id `SubmissionId`.
- **Forms** (`forms.dfy`) holds:
  - the reference lists;
  - the form, with every check-box group kept as a sequence of (option, ticked) pairs in reference order;
  - `dict.get` and item assignment on such a group (`Get`, `Set`);
  - a well-formedness predicate built from the widget bounds;
  - `default_form`.
- **Export** (`export.dfy`) holds `collect_export_record` (`Collect`) and the
  27 named columns of the CSV row.
- **Summary** (`summary.dfy`) holds the layout computed by `draw_summary_image`.
  - The drawing library is replaced by the list of marks it is asked to draw: captions, bar frames and bar fills, each with its position and font.
  - The list is kept in drawing order, together with the cursor `y` that moves down the page.
  - `print_block`, `join_selected` and the animal-bar loop are methods and functions here.
- **Wizard** (`wizard.dfy`) holds the session as a class `Session`.
  - It has the fields `mode`, `step` and `form`, plus the forms exported so far.
  - There is one method per button and one per page of widgets.
  - A control that is not on screen in the current state returns `handled = false` and changes nothing.
  - `Valid()` keeps `step` within 0..11 and the form well formed. It also says that the export page always belongs to the last exported form.

A few facts about the code that shape the model:

- The record has 27 columns.
- The id's date part is the date with only `-` removed.
- Next checks nothing on the page; it always advances.
- Back is disabled at step 0.
- Records are only ever appended to the CSV file. Nothing deletes a record or an image.

## Model

| member | source | states |
|---|---|---|
| Text.SubNonWord | fhmp_app.py:84 | replacing each run of non-word characters by `_` leaves only word characters and never lengthens the string |
| Text.Strip | fhmp_app.py:84 | the stripped string, when non-empty, neither begins nor ends with a character the predicate matches |
| Text.PyStrip | fhmp_app.py:88-91 | `str.strip()` leaves no whitespace at either end of a non-empty result |
| Text.RemoveAll | fhmp_app.py:85 | `replace(c, "")` leaves no occurrence of c and never lengthens the string |
| Text.Join | fhmp_app.py:103-112 | joining no items gives "", and a non-empty join begins with the first item |
| Text.Sanitise | fhmp_app.py:84 | the sanitised site is no longer than the site and, when non-empty, neither begins nor ends with `_` |
| Text.SubmissionId | fhmp_app.py:84-85 | the id is one character longer than the hyphen-free date and the sanitised site together, holds `_` right after the date part, and no `-` before it |
| Text.IntToString | fhmp_app.py:189 | `str(n)` is non-empty, begins with `-` exactly when n is negative, and every later character is a digit |
| Text.SanitiseShape | fhmp_app.py:84 | the sanitised site holds only word characters ([A-Za-z0-9_]) and neither begins nor ends with `_` |
| Text.SanitiseKeepsAlnums | fhmp_app.py:84 | sanitising keeps every letter and digit of the site, in order; only non-word characters and underscores change |
| Text.SanitiseEmptyIff | fhmp_app.py:84 | the sanitised site is empty exactly when the site has no letter or digit |
| Text.SanitiseIdempotent | fhmp_app.py:84 | sanitising an already sanitised site returns it unchanged |
| Text.SubNonWordKeepsAlnums | fhmp_app.py:84 | replacing runs of non-word characters by `_` keeps the letters and digits in order |
| Text.SubNonWordRun | fhmp_app.py:84 | a non-empty run of non-word characters becomes a single `_` |
| Text.SubNonWordConcat | fhmp_app.py:84 | the substitution distributes over a concatenation whose seam touches a word character |
| Text.SiteExample | fhmp_app.py:84 | `North Block #2` sanitises to `North_Block_2` |
| Text.SubmissionIdParts | fhmp_app.py:84-85 | the id is the date without hyphens, then one `_`, then the sanitised site, and its length is the sum of the three |
| Text.SubmissionIdExample | fhmp_app.py:84-85 | date `2024-03-05` with site `North Block #2` gives `20240305_North_Block_2` |
| Text.SubmissionIdBlankSite | fhmp_app.py:84-85 | a site made only of non-word characters gives the hyphen-free date followed by `_` |
| Text.IsoDateDigits | fhmp_app.py:85 | removing hyphens from `Y-M-D` gives `YMD` when no part holds a hyphen |
| Text.RemoveAllKeepsOthers | fhmp_app.py:85 | removing a character deletes exactly its occurrences and keeps the count of every other character |
| Text.RemoveAllConcat | fhmp_app.py:85 | removing a character distributes over concatenation |
| Text.StripIsInfix | fhmp_app.py:84-89 | strip returns a contiguous piece of its input, and every character cut from either end satisfies the strip predicate |
| Text.StripEmptyIff | fhmp_app.py:88-91 | strip returns "" exactly when every character satisfies the predicate, so blank "Other" text counts as empty |
| Text.StripIdempotent | fhmp_app.py:84-89 | stripping twice is the same as stripping once |
| Text.StripFixpoint | fhmp_app.py:84-89 | a string whose ends do not satisfy the predicate is left unchanged |
| Text.StripUnderscoreKeepsAlnums | fhmp_app.py:84 | stripping `_` keeps every letter and digit |
| Text.JoinConcat | fhmp_app.py:103-112 | joining two non-empty lists is joining each and putting the separator between them |
| Text.JoinEmptyIff | fhmp_app.py:103-112 | a join of non-empty items is "" exactly when the list is empty |
| Text.NatToStringRoundTrip | fhmp_app.py:206 | the decimal digits of a severity read back as the same number |
| Text.IntToStringRoundTrip | fhmp_app.py:189 | `str(n)` gives a leading `-` exactly for negative n, and its digits read back as abs(n) |
| Forms.ReferenceListsDistinct | fhmp_app.py:21-32 | no reference list repeats an option, so each check-box map has one entry per option |
| Forms.Get | fhmp_app.py:88 | a flag reads true only if the map holds that key ticked, and an absent key reads false |
| Forms.Set | fhmp_app.py:277 | after the assignment the key reads the assigned flag, and the map grows by at most that one entry |
| Forms.GetKeyed | fhmp_app.py:88 | looking up an option of a map built from its list gives that option's flag |
| Forms.SetKeyed | fhmp_app.py:277 | assigning an option's flag replaces that entry in place and nothing else |
| Forms.SetAbsent | fhmp_app.py:277 | assigning a key that is absent appends it, as a Python dict does |
| Forms.WithBoxesWellFormed | fhmp_app.py:276-313 | replacing one group with a map over its own options keeps the form well formed, and the other groups unchanged |
| Forms.DefaultForm | fhmp_app.py:45-70 | the default form is well formed, dated today, has every box unticked, every single choice at its first option, every severity 0 and every text "" |
| Export.Ticked | fhmp_app.py:93-96 | the listed keys are at most as many as the map's entries |
| Export.Choices | fhmp_app.py:87-92 | the list starts with the ticked keys, in map order, and adds at most one free-text entry after them |
| Export.TickedMember | fhmp_app.py:93-96 | a key is listed exactly when its flag is true and it is not the skipped key |
| Export.TickedConcat | fhmp_app.py:93-96 | the listed keys keep map order |
| Export.TickedEmptyIff | fhmp_app.py:93-96 | nothing is listed exactly when no key other than the skipped one is ticked |
| Export.ChoicesMembers | fhmp_app.py:87-92 | an ordinary option is listed exactly when ticked and not "Other"; `Other:<stripped text>` is listed exactly when "Other" is ticked and the stripped text is not blank |
| Export.BlankOtherIgnored | fhmp_app.py:88-92 | with blank free text the list is just the ticked keys other than "Other" |
| Export.UntickedOtherIgnored | fhmp_app.py:88-92 | with "Other" unticked the free text is ignored whatever it holds |
| Export.Collect | fhmp_app.py:83-127 | the record's id is SubmissionId of the date and site; every scalar field and the five severities are copied from the form; `summary_image` is "" |
| Export.CollectOtherGroups | fhmp_app.py:87-104 | the vegetation and dominant-species fields join the ticked keys, with "Other" handled as in ChoicesMembers |
| Export.CollectOtherGroupsEmptyIff | fhmp_app.py:87-104 | the vegetation and dominant-species fields are "" exactly when their list of choices is empty |
| Export.CollectPlainGroupsEmptyIff | fhmp_app.py:93-112 | landform, water features, soil colour and soil type are "" exactly when nothing in their group is ticked |
| Export.CollectDefault | fhmp_app.py:45-127 | the record of the default form has id `<hyphen-free date>_`, empty lists and texts, zero severities and false flags |
| Export.CollectId | fhmp_app.py:84-100 | the id splits at its first `_` into the hyphen-free date and the sanitised site |
| Export.Row | fhmp_app.py:99-127 | a row has the 27 column names in the record's key order |
| Export.ColumnsDistinct | fhmp_app.py:99-127 | the 27 column names are pairwise distinct |
| Export.RowInjective | fhmp_app.py:99-127 | two records with the same row are the same record, so the row loses nothing |
| Summary.Or | fhmp_app.py:185-188 | `s or d` is s when s is non-empty and d when s is empty |
| Summary.BlockBand | fhmp_app.py:159-165 | print_block moves the cursor to y + 36 + 26·(number of wrapped lines) and draws only between y and the new cursor |
| Summary.PrintBlock | fhmp_app.py:159-165 | the loop draws the heading and one bullet line per wrapped line, and returns the cursor of BlockBand |
| Summary.JoinSelected | fhmp_app.py:167-171 | with no box ticked the joined text is "" |
| Summary.JoinSelectedMatchesRecord | fhmp_app.py:167-171 | the image lists the same entries as the record, in the same order, differing only in the "Other: " prefix of the last one |
| Summary.JoinSelectedSameWithoutOther | fhmp_app.py:167-171 | without a listed free-text entry the image text equals the record field |
| Summary.BarFill | fhmp_app.py:204 | a severity in 0..3 fills between 0 and 220 pixels, and the fill is 0 exactly for severity 0 |
| Summary.BarFillSeverities | fhmp_app.py:204 | severities 0, 1, 2, 3 fill 0, 73, 146 and 220 pixels |
| Summary.BarFillWithinFrame | fhmp_app.py:202-205 | the fill grows with the severity and never leaves the 220-pixel frame |
| Summary.AnimalRowsSnoc | fhmp_app.py:198-207 | each animal adds its caption, frame, fill and value 24 pixels below the previous one |
| Summary.AnimalRowsBand | fhmp_app.py:198-207 | the animal rows stay within 24 pixels per animal of the section's top |
| Summary.AnimalBand | fhmp_app.py:191-210 | the animal section moves the cursor by 30 + 24·5, plus 24 when the Other-feral severity and note are both set, and draws only in that strip |
| Summary.AnimalSection | fhmp_app.py:191-210 | the heading plus the loop over ANIMAL_TYPES produce exactly the marks and the cursor AnimalBand describes |
| Summary.PlaceBlockBand | fhmp_app.py:173-189 | each block placed keeps every mark between the top margin and the cursor, and moves the cursor by at least 36 |
| Summary.UpperPageBand | fhmp_app.py:149-189 | after the title and eight blocks the cursor is at least 126 + 8·36, and every mark so far lies between the margin and the cursor |
| Summary.LowerPageBand | fhmp_app.py:191-214 | the animal section, the 10-pixel gap and the comments block move the cursor at least 196 further and stay in the band |
| Summary.SummaryBand | fhmp_app.py:129-214 | the whole summary draws top to bottom, with every mark between the margin and the final cursor |
| Summary.DrawUpper | fhmp_app.py:149-189 | the title, the date line and the eight blocks give UpperPage |
| Summary.DrawLower | fhmp_app.py:191-214 | the animal section and the comments block give LowerPage |
| Summary.DrawSummary | fhmp_app.py:129-217 | the drawn marks and cursor are SummaryPage of the form |
| Wizard.FinishedRecord | fhmp_app.py:373-377 | the appended record is the collected record with `summary_image` set to `<id>.png`, and nothing else changed |
| Wizard.ExportOf | fhmp_app.py:373-384 | the export keys hold the finished record, `summaries/<id>.png`, `<id>_site_characteristics.csv` and `<id>.png`, all from one id |
| Wizard.ExportNames | fhmp_app.py:374-383 | the image name is the id plus `.png`, the CSV name is the id plus `_site_characteristics.csv`, and the image path is in `summaries/` |
| Wizard.Rows | fhmp_app.py:378 | the CSV gains exactly one row per exported form |
| Wizard.RowsAt | fhmp_app.py:378 | the i-th CSV row is the finished record of the i-th exported form |
| Wizard.RowsSnoc | fhmp_app.py:378 | one more export appends exactly its finished record to the rows |
| Wizard.PrepareExport | fhmp_app.py:372-384 | computing the record, the names and the image in source order gives ExportOf and SummaryPage of the form |
| Wizard.Ticks | fhmp_app.py:276-313 | the boxes after a page of check boxes keep the reference order and carry the widget values |
| Wizard.WriteChecks | fhmp_app.py:276-313 | the loop over a reference list, assigning each checkbox value, yields Ticks of the values |
| Wizard.WriteSeverities | fhmp_app.py:332-333 | the loop over ANIMAL_TYPES sets each severity to its slider value and keeps one severity in 0..3 per animal |
| Wizard.Session.constructor | fhmp_app.py:35-43 | a new session is on the splash screen at step 0 with the default form and nothing exported |
| Wizard.Session.ResetToSplash | fhmp_app.py:219-222 | mode becomes splash, step 0 and the form the default form; the stored export is kept |
| Wizard.Session.CreateNew | fhmp_app.py:232-235 | offered only on the splash screen; enters new mode at step 0 and keeps the form |
| Wizard.Session.ViewPrevious | fhmp_app.py:236-238 | offered only on the splash screen; enters view mode and changes nothing else |
| Wizard.Session.BackToHome | fhmp_app.py:260-262 | offered only in view mode; resets to the splash screen |
| Wizard.Session.Done | fhmp_app.py:354-356 | offered only on page 11; resets to the splash screen, the only way to leave page 11 |
| Wizard.Session.Back | fhmp_app.py:363-365 | offered on pages 1 to 10 (disabled at 0, absent at 11); moves to the previous page |
| Wizard.Session.Next | fhmp_app.py:367-370 | offered on pages 0 to 9; moves to the next page with no validation |
| Wizard.Session.Finish | fhmp_app.py:371-386 | offered only on page 10; exports the current form (one more CSV row, the export keys of that form) and moves to page 11 |
| Wizard.Session.SetDetails | fhmp_app.py:269-272 | on page 0 the date and site widgets set those two fields only |
| Wizard.Session.SetChecks | fhmp_app.py:274-313 | on a group's page its check boxes replace that group's flags, in reference order, and nothing else |
| Wizard.Session.SetOtherText | fhmp_app.py:278-286 | the "Other" text box exists, and sets its field, only while "Other" is ticked on its page |
| Wizard.Session.SetFire | fhmp_app.py:298-301 | on page 5 the two radios set presence and intensity to listed options |
| Wizard.Session.SetSurface | fhmp_app.py:315-316 | on page 6 the two checkboxes set the coarse-surface and rock-outcrop flags |
| Wizard.Session.SetStress | fhmp_app.py:318-322 | on page 7 dieback, drought stress and stressed taxa are set |
| Wizard.Session.SetWeeds | fhmp_app.py:324-328 | on page 8 the weed texts and a percentage in 0..100 are set |
| Wizard.Session.SetSeverities | fhmp_app.py:330-333 | on page 9 each animal's severity becomes its slider value in 0..3, and nothing else changes |
| Wizard.Session.SetFeralNote | fhmp_app.py:334-335 | the Other-feral note exists, and sets its field, only on page 9 with a positive Other-feral severity |
| Wizard.Session.SetComments | fhmp_app.py:337-339 | on page 10 the comments box sets the comments |

## Left out

- `\W` is Python's Unicode class. The model's `IsWordChar` is restricted to ASCII letters, digits and `_`. `str.strip()` uses Python's whitespace set.
- The CSV append (`write_csv_row`, lines 78-81) is file I/O through pandas. Each appended row is `Rows` of the exported forms. The header-once logic, quoting and encoding are not modelled.
- The view page's `pd.read_csv`, `os.listdir`, image listing and download buttons (lines 240-259) are file I/O and UI. They are not modelled. Only its "Back to home" button is.
- The download buttons on the export page (lines 344-352) are I/O. They read the stored export, which `ExportOf` of the last exported form describes.
- PIL (`Image.new`, `draw.text`, `draw.rectangle`, `img.save`) and the font fallback are foreign calls. Drawing is modelled as the list of marks passed to them. The 1200 x 900 canvas is not modelled, so marks beyond its bottom edge are not taken into account.
- `textwrap.wrap` is a function parameter (`Wrapper`) of the summary.
- The bar fill `int((val/3.0)*bar_w)` is float arithmetic. `BarFill` computes it in integers, which agrees for the severities 0..3.
- `date.today()` is a parameter `today` of the constructor and of the reset methods. `st.date_input` and `datetime.fromisoformat` are treated as giving back an ISO date string.
- `os.path.join` is written with the POSIX separator `/`.
- Streamlit widgets become method parameters. Their bounds become preconditions: severities in 0..3, percentage in 0..100, radio values from their lists. `st.rerun` and the page redraw are not modelled.
- `init_session` fills in missing keys on every rerun. Only its first run is modelled, as the `Session` constructor. The `step_triggered` key is never read and is left out.
- The `animals` dictionary built at line 97 is never used and is left out.
- `Wizard.Session.Finish`: keeps the exported form instead of computing the record and the image inside the method; `Rows`/`RowsSnoc` give the CSV row and `PrepareExport`/`DrawSummary` the image of that form. The session stores the last exported form, and the export keys are `ExportOf` of it. The model assumes `img.save` and `to_csv` both succeed. In the source neither call is guarded. If either raises, the run stops with `step` still 10 and no row written. If `to_csv` raises after the image was saved, the PNG is left in `summaries/` with no row referring to it. The model does not capture these failures.
- Re-exporting the same id overwrites the image file. The model does not describe the file system, so this overwrite is not captured.
