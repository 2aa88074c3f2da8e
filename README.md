# TREC inspection report form filler — a Dafny model

The form filler reads a home-inspection record (JSON) and fills the form
fields of a TREC inspection template. It has two variants, `report.py` and
`working-1.py`. This project models its data-mapping core:

- **Record extractor** (`InspectionDataParser.get_*`). It reads the nested
  record into flat property, client, inspector, schedule and section records.
  Every absent key gets its default. Order and counts are kept.
- **Header fill.** The four scalar header fields and the inspection date, with
  the fixed fallback `08/13/2025`.
- **Inspection matrix** (`_fill_inspection_matrix`).
  - A section qualifies when its first line item has a non-blank status.
  - The first twelve qualifying sections fill a grid of four columns (I, NI,
    NP, D): section `i` ticks `CheckBox1[4*i + column]`.
  - `report.py` writes `True` when that exact name is a template field.
  - `working-1.py` writes `'Yes'` into `CheckBox1[t]` itself when the
    catalog lists it, and otherwise into the first catalog name that contains
    it. It then repairs the `/V` and `/AS` entries of the matching checkbox
    annotations.
- **Narrative fill** (`_fill_inspection_details`).
  - Comments are rendered as `section (location): text`; blank ones are
    dropped.
  - Defect comments come first, then the rest.
  - Text over 500 characters is cut to 500 and `...` is appended.
  - The results go, in order, onto the template's text fields whose names
    contain `Text` and do not start with `TextField`.
- **Report generation** (`generate_report`).
  - In `report.py` it is the three stages above.
  - In `working-1.py` it also categorises the catalog and flattens every
    annotation at the end.
- **Annotation repair** (`working-1.py` only). Setting the checkbox state,
  flattening all fields, flattening checkboxes only, creating checkbox
  appearances and choosing export values — all as updates to annotation
  dictionaries.
- **The summary counts** printed by `main`.

How the model represents things:

- **Values.** The record is a `Json` value. Each Python exception the core can
  raise on a malformed record becomes the failure `Raised` of an `Outcome`.
- **Catalog.** The template's field catalog is a sequence of names, in the
  order of the field dictionary.
- **What each stage writes.** A stage's output is a map from field name to
  value. This map is the field data the stage hands to the PDF library.
- **Annotations.** A widget annotation is an object of class
  `Annotations.Annotation` whose dictionary the repair steps update in place.
- **How each core file is modelled.**
  - The getters are functions.
  - Everything the source does with loops is a method with loop invariants,
    proved against a specification function: `get_sections`, both matrix
    fillers, the details filler, the catalog categorisation, the summary
    counters and the annotation repairs.
  - The annotation repairs are modelled over a sequence of `Annotation`
    objects, with `modifies` frames.

Files:

| file | module | content |
|---|---|---|
| json.dfy | JsonValues | the `Json` values, Python truthiness, `dict.get` and iteration, and walks that raise at the first failing element |
| text.dfy | Text | `str.strip()`, substring tests, and `str()` of integers |
| extractor.dfy | Extractor | the getters and `get_sections` |
| catalog.dfy | Catalog | field categorisation, text fields, checkbox names |
| annotations.dfy | Annotations | the annotation dictionaries and their repair steps |
| matrix.dfy | Matrix | the inspection matrix of both variants |
| details.dfy | Details | comment rendering, ordering, truncation and the text-field fill |
| header.dfy | Header | the date fallback and the header fill |
| summary.dfy | Summary | the counters of `main` |
| report.dfy | Report | `generate_report` of both variants, plus an end-to-end sample |

## Model

| member | source | states |
|---|---|---|
| JsonValues.Get | report.py:105-106 | `dict.get(key, default)`: the stored value if the key is present, else the default; it raises exactly when the receiver is not a dict |
| JsonValues.Iterate | report.py:110 | `for x in v`: a list yields its items; an empty string or dict yields nothing; every other value (including non-empty strings and dicts, whose elements have no `.get`) raises |
| JsonValues.MapAllOk | report.py:110-151 | a loop that appends one result per element succeeds iff every element succeeds; it then keeps the length and the order |
| JsonValues.FoldOk | report.py:358-382 | a loop that threads an accumulator, where whether a step raises depends only on the element, succeeds iff no element raises |
| JsonValues.FoldAppend | report.py:358-382 | walking `xs + ys` is walking `ys` from where `xs` left off |
| Text.StripIsInfix | report.py:286 | `strip()` yields a contiguous infix of the input, with only whitespace removed on either side |
| Text.StripEnds | report.py:286 | a stripped string is empty or begins and ends with a non-space character |
| Text.StripEmptyIffBlank | report.py:286 | `s.strip()` is empty iff `s` consists of whitespace only |
| Text.DecimalInjective | report.py:314-324 | `str(n)` is injective on naturals, so distinct slots give distinct field names |
| Extractor.GetPropertyInfo | report.py:54-66 | each address field is the stored value or `''`; the square footage comes from the nested `propertyInfo`, which defaults to `{}`; it raises iff some level is not a dict |
| Extractor.GetClientInfo | report.py:68-78 | name, email, phone and user type are the stored values or `''`; it raises iff a level is not a dict |
| Extractor.GetInspectorInfo | report.py:80-90 | id, name, email and phone are the stored values or `''` |
| Extractor.GetInspectionSchedule | report.py:92-101 | date, start and end time are the stored values or `''` |
| Extractor.EmptyRecordDefaults | report.py:54-153 | an empty record yields every documented default and no sections |
| Extractor.ParseComment | report.py:134-147 | a comment dict yields its ten fields, each the stored value or its default (`''`, `False` or `[]`); a non-dict raises |
| Extractor.ParseLineItem | report.py:121-149 | a line item's six fields are defaulted; its comments are those of the raw list, in order and all parsed; it raises iff the item is not a dict, its comments cannot be iterated or a comment raises |
| Extractor.ParseSection | report.py:110-151 | a section's four fields are defaulted; its line items are those of the raw list, in order and all parsed |
| Extractor.SectionsOf | report.py:103-153 | `get_sections` keeps the number and order of the sections, and each section is the parse of the raw entry in its position |
| Extractor.GetSections | report.py:103-153 | the three nested appending loops compute exactly `SectionsOf` (working-1.py:103-153 is the same code) |
| Catalog.FilterMembers | working-1.py:375-381 | a name is kept by a filter iff it is in the catalog and satisfies the predicate |
| Catalog.AnalyzeFormFields | working-1.py:365-381 | the categorisation loop yields the checkbox, text and other lists as order-preserving filters of the catalog |
| Catalog.CategoriesPartition | working-1.py:375-381 | the three category lists are a permutation of the catalog, and no name is in two of them |
| Catalog.FilterOfFilter | working-1.py:375-381 | filtering a filtered catalog by a stronger predicate is filtering once |
| Catalog.CheckBoxNameInjective | report.py:314-324 | different slots have different `CheckBox1[...]` names |
| Header.InspectionDate | report.py:190-199 | a falsy timestamp, or one whose conversion fails, gives `08/13/2025`; otherwise the converted date in `%m/%d/%Y` |
| Header.DateNeverEmpty | report.py:190-199 | the date is never empty and has `/` at positions 2 and 5; a converted timestamp yields the fallback text only when it denotes 13 August 2025 |
| Header.FormatDateInjective | report.py:194-195 | different calendar days format differently |
| Header.FormatDateShape | report.py:194-195 | a formatted date is at least seven characters long, ten with a four-digit year, with separators at positions 2 and 5 |
| Header.FillHeader | report.py:226-241 | a header field is written iff the template lists it and its value is truthy; the written value is the client name, date, address or inspector name |
| Header.DateAlwaysWritten | report.py:190-199 | with the computed date, the date field is written whenever the template has one |
| Header.HeaderFieldsApart | report.py:226-241 | no header field is a checkbox or a comment field |
| Matrix.QualifyIff | report.py:278-292 | a section qualifies iff it has a line item whose first status is truthy and non-blank after `strip()`; a truthy status that is not a string raises; the entry carries the name, the status and the deficiency flag |
| Matrix.QualifyIgnoresLaterItems | report.py:278-281 | qualification reads only the first line item |
| Matrix.QualifyingSections | report.py:271-292 | the qualification loop yields the qualifying entries in section order (working-1.py:466-486 is the same) |
| Matrix.QualifySection | report.py:273-292 | one pass of the qualification loop decides as `Qualify` |
| Matrix.ListRows | report.py:295-296 | the debug listing raises iff some qualifying name cannot be sliced |
| Matrix.CollectRows | report.py:271-296 | the rows of the grid loop, or failure when qualification or the listing raises |
| Matrix.Slot | report.py:303-325 | a status's slot lies in row `i` and in the column of its code; statuses other than I, NI, NP and D have no slot |
| Matrix.MatrixWrites | report.py:303-329 | every write is a catalog field set to `True` |
| Matrix.FillInspectionMatrix | report.py:265-343 | `_fill_inspection_matrix` of report.py writes exactly `MatrixFill`: nothing when a loop raises, else the merged rows of the first twelve entries |
| Matrix.FillGrid | report.py:302-338 | the grid loop merges the rows of the first `min(12, n)` entries |
| Matrix.GridRow | report.py:310-325 | one row's `checkbox_data` is at most the one slot its status selects, and only if the catalog lists it |
| Matrix.MatrixWritesSlot | report.py:303-325 | `CheckBox1[slot]` is written iff its row is processed, that row's status selects the slot's column, and the catalog lists the name |
| Matrix.MatrixWritesShape | report.py:303-325 | every written field is the name of a slot of a processed row |
| Matrix.MatrixFillSlots | report.py:303-325 | at most one slot per processed row; never a row past the twelfth qualifying section; never a status outside the four codes |
| Matrix.MatrixIgnoresDeficient | report.py:326-328 | the deficiency flag never changes what the grid writes |
| Matrix.MatchingFirst | working-1.py:567-570 | the names matching a slot are exactly the catalog names that contain it, and the first of them is the first such name in catalog order |
| Matrix.ChosenFieldIsFirstMatch | working-1.py:560-585 | the field chosen for a slot is its own name when listed, else the first catalog name containing that name; there is none iff no catalog name contains it |
| Matrix.FindCheckboxField | working-1.py:560-585 | the candidate-gathering loop and the first-listed search with its `break` compute `ChosenField` |
| Matrix.RowUpdateShape | working-1.py:546-585 | a row hands on at most one field; it is a catalog name containing the row's slot name, set to `'Yes'` |
| Matrix.AliasedRow | working-1.py:546-585 | one row's `checkbox_data` of working-1.py is `RowUpdate` |
| Matrix.AliasWrites | working-1.py:516-608 | every field handed on is a catalog field set to `'Yes'` |
| Matrix.FillInspectionMatrixAliased | working-1.py:459-616 | `_fill_inspection_matrix` of working-1.py hands on exactly `MatrixFillAliased`, and afterwards every annotation is its old self with the checkbox state set for those writes |
| Matrix.FillGridAliased | working-1.py:516-608 | the working-1.py grid loop merges the rows, and the repeated per-row state repairs amount to one repair with the merged data |
| Matrix.ApplyRow | working-1.py:589-606 | repairing the annotations with a row's data after earlier rows is repairing once with the merged data |
| Matrix.RowsAgree | working-1.py:560-585 | whatever a report.py row writes, the working-1.py row writes too |
| Matrix.VariantsInclude | working-1.py:516-585 | every field report.py ticks is also handed on by working-1.py |
| Matrix.VariantsSame | working-1.py:516-585 | when no catalog name merely contains a slot name, both variants write the same fields |
| Details.CollectComments | report.py:355-382 | the three nested collection loops compute `Collect` of the walk over all comments |
| Details.CollectSection | report.py:362-382 | the loop over one section's line items folds its tagged comments |
| Details.CollectItem | report.py:365-382 | the loop over one line item's comments folds them |
| Details.AddComment | report.py:366-382 | one comment: raises on non-string text, skips blank text, else appends the rendering to the defect or the general list |
| Details.CollectOk | report.py:366 | collection succeeds iff every comment text is a string |
| Details.CollectSplits | report.py:355-385 | the defect list is the defect renderings in walk order, and the general list is all the others, in walk order |
| Details.SelectPermutes | report.py:385 | defects followed by general comments are a permutation of all non-blank renderings |
| Details.WalkAppend | report.py:358-365 | the walk visits sections, line items and comments in order |
| Details.RenderExample | report.py:370-375 | section `Roof`, location `North slope` and text `missing shingles` render as `Roof (North slope): missing shingles` |
| Details.OrderExample | report.py:385 | general G1, defect D1 and general G2 are filled as D1, G1, G2 |
| Details.Truncate | report.py:393 | up to 500 characters is unchanged; longer is the first 500 characters followed by `...`, 503 in all |
| Details.TruncateExample | report.py:393 | a 600-character comment becomes 503 characters |
| Details.DetailWritesKeys | report.py:388-394 | exactly the first `min(#comments, #fields)` text fields are written |
| Details.DetailWritesValues | report.py:388-394 | the i-th text field receives the truncated i-th comment |
| Details.FillInspectionDetails | report.py:345-413 | `_fill_inspection_details` writes exactly `DetailFill` (working-1.py:618-685 is the same code) |
| Details.DetailFillFields | report.py:351 | every field written is a catalog name containing `Text` and not starting with `TextField`; a non-string comment text makes the stage write nothing |
| Annotations.AppearanceState | working-1.py:781-792 | `Yes`, `On` and `1`, with or without `/`, select `/Yes`, `/On` and `/1`; any other value `v` selects `/v` |
| Annotations.SetStateEffect | working-1.py:763-796 | a `/Btn` widget named in the data gets `/V = '/'+value` and the selected `/AS`; every other key and every other annotation is unchanged |
| Annotations.SetStateIdempotent | working-1.py:763-796 | setting the state twice is setting it once |
| Annotations.SetStateMerge | working-1.py:763-796 | setting the state for `d1` and then for string data `d2` is setting it once for `d1 + d2` |
| Annotations.Annotation.SetState | working-1.py:765-796 | one loop body of `_set_checkbox_appearance_state` |
| Annotations.SetCheckboxAppearanceState | working-1.py:747-809 | every annotation of every page is repaired as `SetStateEntry` |
| Annotations.FlattenAllEffect | working-1.py:305-345 | a widget with a truthy `/V` loses exactly the ten interactive keys and gets `/Ff=1` and `/F=4`; a button gets `/AS=/Yes`; text fields and buttons get an `/AP` if missing; every other key and every other annotation is unchanged |
| Annotations.FlattenAllIdempotent | working-1.py:305-345 | flattening twice is flattening once |
| Annotations.Annotation.FlattenAll | working-1.py:302-345 | one loop body of `_flatten_all_form_fields_completely` |
| Annotations.FlattenAllFormFields | working-1.py:286-363 | every annotation of every page is flattened as `FlattenAllEntry` |
| Annotations.FlattenCheckboxEffect | working-1.py:827-846 | a button widget with a truthy `/V` loses `/FT`, `/Ff`, `/P` and `/Parent`, and gets `/AS := /V` only when `/AS` is absent; all else is unchanged |
| Annotations.FlattenCheckboxIdempotent | working-1.py:827-846 | checkbox flattening twice is flattening once |
| Annotations.Annotation.FlattenCheckbox | working-1.py:825-846 | one loop body of `_flatten_checkboxes_only` |
| Annotations.FlattenCheckboxesOnly | working-1.py:811-860 | every annotation of every page is flattened as `FlattenCheckboxEntry` |
| Annotations.WithNormal | working-1.py:719-721 | `/AP` ends up holding `/N`; it is unchanged when `/N` was present, else an empty `/N` is appended |
| Annotations.WithYes | working-1.py:724-733 | `/N` ends up holding `/Yes`; it is unchanged when `/Yes` was present; other entries are unchanged |
| Annotations.AppearanceEffect | working-1.py:704-736 | a handled checkbox ends with `/AS = /Yes` and a `/Yes` entry in `/AP`'s `/N`; existing entries keep their order and values; other keys and other annotations are unchanged |
| Annotations.AppearanceIdempotent | working-1.py:704-736 | creating the appearances twice is creating them once |
| Annotations.Annotation.CreateAppearance | working-1.py:701-736 | one loop body of `_create_checkbox_appearances` |
| Annotations.CreateCheckboxAppearances | working-1.py:687-745 | every annotation is updated as `AppearanceEntry` |
| Annotations.ExportValuePolicy | working-1.py:426-457 | when the field's `/AP` entry is a dict whose `/N` entry is a dict, the export values are that dict's keys in order; else the field's `/Opt` entry; else `Yes, On, 1, True, X, Checked` |
| Summary.CountSummary | report.py:449-463 | the counters are the total number of line items, the total number of comments, and the number of line items with a truthy `is_deficient` (working-1.py:897-910 is the same) |
| Summary.DeficienciesBounded | report.py:454-463 | there are never more deficiencies than line items |
| Summary.CountsAppend | report.py:454-463 | the three counts add up over a split of the sections |
| Report.GenerateReport | report.py:164-263 | report.py's `generate_report` succeeds iff every getter succeeds and the template has fields; the header fields are written iff listed and truthy, with the derived values; the matrix and details stages write `MatrixFill` and `DetailFill` |
| Report.GenerateFlattenedReport | working-1.py:164-284 | the same for working-1.py with the aliased matrix stage; on success every annotation ends up state-repaired for the matrix writes and then flattened; on failure no annotation changes |
| Report.StagesApart | report.py:244-250 | in report.py the header, matrix and details stages write pairwise disjoint fields, so no stage overrides another |
| Report.CheckBoxNameKind | report.py:351 | a grid checkbox name is a checkbox field and never a comment field |
| Report.SampleRows | report.py:278-297 | of a section with status `D` and a section without line items, only the first becomes a grid row |
| Report.SampleMatrix | report.py:303-325 | with `CheckBox1[0..3]` listed, that row ticks `CheckBox1[3]` and leaves the other three boxes and every other field untouched |
| Report.SampleDetails | report.py:355-394 | its one defect comment, "cracked tile", fills the one text field as `SectionA: cracked tile` |

## Left out

- The PDF library (PyPDF2) is outside the model:
  - reading the template, copying pages, `get_fields` and `writer.write`;
  - the library's own update of widget `/V` values inside
    `update_page_form_field_values`. A stage's output is the field data it
    hands to that call. Page placement is not modelled: the header goes to
    page 0, `report.py`'s matrix to page 1 (page 0 when the template has one
    page), and the details and `working-1.py`'s matrix to every page. The
    model keeps one write map per stage, with no page attached.
  - The annotations of all pages are one sequence of `Annotation` objects.
- File I/O and the template-exists check are not modelled. Neither are
  `json.load` and its error translation, or the file-size report in `main`.
- Printing, logging, tracebacks and the debug dumps are not modelled. This
  includes the byte-order-mark test `name != name.encode().decode(...)`,
  which depends on Python's string encoding.
- The `NeedAppearances` and `/AcroForm` root edits of working-1.py are not
  modelled.
- Header.InspectionDate: `datetime.fromtimestamp(ts / 1000)` uses floats and
  the local time zone. It is the parameter `convert`, and its failure is
  `None`.
- Details.Render: `str()` of a list or dict section name or location is the
  parameter `repr`.
- JSON numbers are integers; floats are not modelled. Python's `/` on them
  occurs only in `date_timestamp / 1000`, inside the converter `convert`.
- The `checkbox_patterns` list and its de-duplication (working-1.py:524-544)
  feed nothing that is written, so they are not modelled.
- The alias loop over `checkbox_values_to_try` is modelled only by its
  outcome. A dict store cannot fail, so the first alias, `'Yes'`, is always
  kept.
- The exception branch of `_determine_checkbox_export_value` cannot be
  reached by a dictionary or a value of the model, so the model has no such
  branch.
- PyPDF2's `DictionaryObject` checks the types of its keys and values;
  plain map updates stand in for it. The appearance stream bytes of
  `_create_checkbox_appearances` are one opaque constant.
- `_create_checkbox_appearances` and `_flatten_checkboxes_only` are never
  called by the program. They are modelled because they are part of the
  annotation repair.
- PDF boolean and null objects are not part of `PdfObj`.
- Each stage's own `try`/`except`, which swallows a failure, is modelled as
  "the stage writes nothing". A failure inside the library calls of a stage
  is not modelled.
