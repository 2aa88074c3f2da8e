/** Report generation (`TRECFormFiller.generate_report`): read the record,
    compute the header values, and let each filling stage hand its field
    data to the form. In `working-1.py` the matrix stage also repairs the
    checkbox annotations and the report ends by flattening every field. */
module Report {
  import opened JsonValues
  import opened Text
  import opened Extractor
  import opened Catalog
  import opened Header
  import opened Matrix
  import opened Details
  import opened Annotations

  /** The field data each stage hands to the form, in the order the stages
      run; a later stage overrides an earlier one on a shared field. */
  datatype Filled = Filled(header: map<string, Json>, matrix: map<string, Json>, details: map<string, Json>)

  /** The five getters `generate_report` calls; if any of them raises, the
      report fails. */
  predicate ReadsCleanly(data: Json) {
    GetPropertyInfo(data).Ok? && GetClientInfo(data).Ok? && GetInspectorInfo(data).Ok? &&
    GetInspectionSchedule(data).Ok? && SectionsOf(data).Ok?
  }

  /** The client name, inspection date, property address and inspector name
      as `generate_report` derives them from the record. */
  function HeaderOf(data: Json, convert: Json -> Option<CalendarDate>): HeaderData
    requires ReadsCleanly(data)
  {
    HeaderData(GetClientInfo(data).value.name,
               InspectionDate(GetInspectionSchedule(data).value.date, convert),
               GetPropertyInfo(data).value.fullAddress,
               GetInspectorInfo(data).value.name)
  }

  /** Whether the header fill writes field `f`. */
  predicate HeaderWrites(h: HeaderData, catalog: seq<string>, f: string) {
    f in catalog && Intended(h, f).Some? && Truthy(Intended(h, f).value)
  }

  /** `generate_report` of `report.py`. `Raised` stands for its `return
      False`: a getter that raises, or a template without form fields. The
      template's field catalog is `catalog`; `convert` renders timestamps and
      `repr` renders containers as `str()` would. */
  method GenerateReport(data: Json, catalog: seq<string>, convert: Json -> Option<CalendarDate>,
                        repr: Json -> string)
    returns (result: Outcome<Filled>)
    ensures result.Ok? <==> ReadsCleanly(data) && catalog != []
    ensures result.Ok? ==>
      var h := HeaderOf(data, convert);
      (forall f :: f in result.value.header <==> HeaderWrites(h, catalog, f)) &&
      (forall f :: f in result.value.header ==> result.value.header[f] == Intended(h, f).value)
    ensures result.Ok? ==> result.value.matrix == MatrixFill(SectionsOf(data).value, catalog)
    ensures result.Ok? ==> result.value.details == DetailFill(SectionsOf(data).value, catalog, repr)
  {
    var property :- GetPropertyInfo(data);
    var client :- GetClientInfo(data);
    var inspector :- GetInspectorInfo(data);
    var schedule :- GetInspectionSchedule(data);
    var sections :- GetSections(data);
    var h := HeaderData(client.name, InspectionDate(schedule.date, convert), property.fullAddress, inspector.name);
    if catalog == [] {
      return Raised;
    }
    var formData := FillHeader(h, catalog);
    var matrix := FillInspectionMatrix(sections, catalog);
    var details := FillInspectionDetails(sections, catalog, repr);
    result := Ok(Filled(formData, matrix, details));
  }

  /** `generate_report` of `working-1.py`: the same reads and header, the
      categorisation of the catalog (which only feeds debug output), the
      aliased matrix stage with its annotation repair, the details stage and
      finally the flattening of every annotation. Nothing is changed when
      the report fails. */
  method GenerateFlattenedReport(data: Json, catalog: seq<string>, convert: Json -> Option<CalendarDate>,
                                 repr: Json -> string, annots: seq<Annotation>)
    returns (result: Outcome<Filled>)
    modifies set a | a in annots
    ensures result.Ok? <==> ReadsCleanly(data) && catalog != []
    ensures result.Ok? ==>
      var h := HeaderOf(data, convert);
      (forall f :: f in result.value.header <==> HeaderWrites(h, catalog, f)) &&
      (forall f :: f in result.value.header ==> result.value.header[f] == Intended(h, f).value)
    ensures result.Ok? ==> result.value.matrix == MatrixFillAliased(SectionsOf(data).value, catalog)
    ensures result.Ok? ==> result.value.details == DetailFill(SectionsOf(data).value, catalog, repr)
    ensures result.Ok? ==> forall a :: a in annots ==>
      a.entries == FlattenAllEntry(SetStateEntry(old(a.entries), result.value.matrix))
    ensures result.Raised? ==> forall a :: a in annots ==> a.entries == old(a.entries)
  {
    var property :- GetPropertyInfo(data);
    var client :- GetClientInfo(data);
    var inspector :- GetInspectorInfo(data);
    var schedule :- GetInspectionSchedule(data);
    var sections :- GetSections(data);
    var h := HeaderData(client.name, InspectionDate(schedule.date, convert), property.fullAddress, inspector.name);
    if catalog == [] {
      return Raised;
    }
    var text, checkbox, other := AnalyzeFormFields(catalog);
    var formData := FillHeader(h, catalog);
    var matrix := FillInspectionMatrixAliased(sections, catalog, annots);
    var details := FillInspectionDetails(sections, catalog, repr);
    FlattenAllFormFields(annots);
    result := Ok(Filled(formData, matrix, details));
  }

  /** A matrix checkbox name is a checkbox field and never a comment field. */
  lemma CheckBoxNameKind(slot: nat)
    ensures IsCheckboxName(CheckBoxName(slot)) && !IsCommentField(CheckBoxName(slot))
  {
    var f := CheckBoxName(slot);
    assert "CheckBox" <= f;
    forall i | 0 <= i < |f| ensures f[i] != 'T' {
      if 10 <= i < |f| - 1 {
        assert f[i] == Decimal(slot)[i - 10];
      }
    }
    Lacks(f, "Text", 0);
  }

  /** In `report.py` the three stages write disjoint sets of fields, so no
      stage overrides another and the order of the updates does not matter. */
  lemma StagesApart(data: Json, catalog: seq<string>, convert: Json -> Option<CalendarDate>,
                    repr: Json -> string, f: string)
    requires ReadsCleanly(data)
    ensures var sections := SectionsOf(data).value;
      var m := MatrixFill(sections, catalog);
      var d := DetailFill(sections, catalog, repr);
      !(HeaderWrites(HeaderOf(data, convert), catalog, f) && f in m) &&
      !(HeaderWrites(HeaderOf(data, convert), catalog, f) && f in d) &&
      !(f in m && f in d)
  {
    var sections := SectionsOf(data).value;
    var m := MatrixFill(sections, catalog);
    DetailFillFields(sections, catalog, repr, f);
    if Intended(HeaderOf(data, convert), f).Some? {
      HeaderFieldsApart(HeaderOf(data, convert), f);
    }
    if f in m {
      var es := MatrixRows(sections).value;
      MatrixWritesShape(es, catalog, Min(MaxSections, |es|), f);
      var slot: nat :| slot / 4 < Min(MaxSections, |es|) && f == CheckBoxName(slot);
      CheckBoxNameKind(slot);
    }
  }

  /** Two sections: the first one's first line item is deficient and
      carries one defect comment; the second has no line items. */
  function SampleSections(): seq<Section> {
    var comment := Comment(JStr("c1"), JStr("cracked tile"), DefectType, EmptyString, EmptyString,
                           False, False, Zero, EmptyList, EmptyList);
    var item := LineItem(JStr("li1"), JStr("Roof"), JStr("Roof"), Zero, JStr("D"), JBool(true), [comment]);
    [Section(JStr("s1"), JStr("SectionA"), Zero, Zero, [item]), Section(JStr("s2"), JStr("SectionB"), Zero, Zero, [])]
  }

  /** A template with the four boxes of the first grid row and one comment
      field. */
  function SampleCatalog(): seq<string> {
    [CheckBoxName(0), CheckBoxName(1), CheckBoxName(2), CheckBoxName(3), "Text1"]
  }

  /** Only the first sample section qualifies for the grid, with status `D`. */
  lemma SampleRows()
    ensures MatrixRows(SampleSections()) == Ok([Entry(JStr("SectionA"), "D", JBool(true))])
  {
    var sections := SampleSections();
    var e := Entry(JStr("SectionA"), "D", JBool(true));
    assert Qualify(sections[0]) == Ok(Some(e)) by {
      assert Strip("D") == "D";
    }
    assert Qualify(sections[1]) == Ok(None);
    assert sections == [sections[0], sections[1]];
    TwoRows(sections[0], sections[1], e);
  }

  /** A qualifying section with a sliceable name followed by one that does
      not qualify make a grid of one row. */
  lemma TwoRows(s: Section, t: Section, e: Entry)
    requires Qualify(s) == Ok(Some(e)) && Qualify(t) == Ok(None) && Sliceable(e.name)
    ensures MatrixRows([s, t]) == Ok([e])
  {
    MapAllPair(s, t, Qualify, Some(e), None);
    PresentSomeNone(e);
  }

  lemma PresentSomeNone(e: Entry)
    ensures Present([Some(e), None]) == [e]
  {
    assert Present([Some(e)]) == [e] by {
      PresentSnoc([], Some(e));
      assert [] + [Some(e)] == [Some(e)];
      assert [] + [e] == [e];
    }
    PresentSnoc([Some(e)], None);
    assert [Some(e)] + [None] == [Some(e), None];
  }

  /** The sample ticks the D box of the first grid row; the other three
      boxes stay untouched and the second section adds nothing... */
  lemma SampleMatrix()
    ensures MatrixFill(SampleSections(), SampleCatalog()) == map[CheckBoxName(3) := Checked]
  {
    var e := Entry(JStr("SectionA"), "D", JBool(true));
    var catalog := SampleCatalog();
    SampleRows();
    assert Slot(0, "D") == Some(3);
    assert catalog[3] == CheckBoxName(3);
    assert RowWrite(0, "D", catalog) == map[CheckBoxName(3) := Checked];
    assert MatrixWrites([e], catalog, 1) == map[] + RowWrite(0, "D", catalog);
  }

  /** The one comment of the sample, tagged with its section's name. */
  lemma SampleWalk()
    ensures Walk(SampleSections()) == [(JStr("SectionA"), SampleSections()[0].lineItems[0].comments[0])]
  {
    var sections := SampleSections();
    var x := (JStr("SectionA"), sections[0].lineItems[0].comments[0]);
    var items := sections[0].lineItems;
    assert Walk([sections[0]]) == [x] by {
      assert [sections[0]][..0] == [] && items[..0] == [];
      assert Pair(JStr("SectionA"), items[0].comments) == [x];
      assert ItemPairs(JStr("SectionA"), items) == [x];
    }
    assert sections[..1] == [sections[0]];
    assert ItemPairs(JStr("SectionB"), []) == [];
    assert [x] + [] == [x];
  }

  lemma SampleCollect(repr: Json -> string)
    ensures Collect(Walk(SampleSections()), repr) == Ok(Collected(["SectionA: cracked tile"], []))
  {
    var x := (JStr("SectionA"), SampleSections()[0].lineItems[0].comments[0]);
    SampleWalk();
    assert Strip("cracked tile") == "cracked tile";
    assert Render(JStr("SectionA"), EmptyString, "cracked tile", repr) == "SectionA: cracked tile";
    assert NoteOf(x, repr) == Ok(Some(Note("SectionA: cracked tile", true)));
    assert NothingCollected.defects + ["SectionA: cracked tile"] == ["SectionA: cracked tile"];
    assert Step(NothingCollected, x, repr) == Ok(Collected(["SectionA: cracked tile"], []));
    FoldSnoc(Ok(NothingCollected), [], x, Stepper(repr));
    assert [] + [x] == [x];
  }

  /** The sample catalog has exactly one comment field. */
  lemma SampleFields()
    ensures TextFields(SampleCatalog()) == ["Text1"]
  {
    var catalog := SampleCatalog();
    forall i | 0 <= i < 4 ensures !IsCommentField(catalog[..4][i]) {
      CheckBoxNameKind(i);
    }
    FilterNone(catalog[..4], IsCommentField);
    assert IsCommentField("Text1");
    FilterSnoc(catalog[..4], "Text1", IsCommentField);
    assert catalog[..4] + ["Text1"] == catalog;
    assert [] + ["Text1"] == ["Text1"];
  }

  /** ...and writes its comment, prefixed by the section name, into the one
      comment field of the catalog. */
  lemma SampleDetails(repr: Json -> string)
    ensures DetailFill(SampleSections(), SampleCatalog(), repr) ==
      map["Text1" := JStr("SectionA: cracked tile")]
  {
    SampleCollect(repr);
    SampleFields();
    assert Ordered(Collected(["SectionA: cracked tile"], [])) == ["SectionA: cracked tile"];
    assert Truncate("SectionA: cracked tile") == "SectionA: cracked tile";
  }
}
