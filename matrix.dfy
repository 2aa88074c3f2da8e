/** The inspection matrix: which sections enter the checkbox grid, which grid
    slot each one targets, and which checkbox fields both fillers write.

    `report.py` writes `True` into `CheckBox1[slot]` when that exact name is in
    the catalog. `working-1.py` also accepts any catalog name containing the
    slot's name (meant for names with a byte-order-mark prefix), writes the
    string `'Yes'`, and hands each per-section update on to the annotation
    repair step. */
module Matrix {
  import opened JsonValues
  import opened Text
  import opened Extractor
  import opened Catalog
  import opened Annotations

  /** At most this many qualifying sections reach the grid. */
  const MaxSections: nat := 12
  /** The grid value `report.py` writes. */
  const Checked: Json := JBool(true)
  /** The value `working-1.py` writes: the first entry of its alias list
      `'Yes', 'On', '1', '/Yes', '/On', '/1', True`. Storing a value in a
      Python dict cannot fail, so the first alias is always the one kept. */
  const CheckedAlias: string := "Yes"

  function Min(a: nat, b: nat): nat { if a < b then a else b }

  /** An entry of `inspection_sections`: a qualifying section's name, the
      status of its first line item and that item's deficiency flag. */
  datatype Entry = Entry(name: Json, status: string, deficient: Json)

  /** `if line_items: ... if status and status.strip():` for one section.
      Only the first line item is read. A truthy status that is not a string
      has no `.strip()` and raises. */
  function Qualify(s: Section): Outcome<Option<Entry>> {
    if s.lineItems == [] then Ok(None)
    else
      var first := s.lineItems[0];
      var status := first.inspectionStatus;
      if !Truthy(status) then Ok(None)
      else if !status.JStr? then Raised
      else if Strip(status.s) == "" then Ok(None)
      else Ok(Some(Entry(s.name, status.s, first.isDeficient)))
  }

  /** The qualifying entries among the per-section decisions, in order. */
  function Present(ds: seq<Option<Entry>>): (r: seq<Entry>)
    ensures |r| <= |ds|
  {
    if ds == [] then []
    else Present(ds[..|ds| - 1]) + (match ds[|ds| - 1] case Some(e) => [e] case None => [])
  }

  lemma PresentSnoc(ds: seq<Option<Entry>>, d: Option<Entry>)
    ensures Present(ds + [d]) == Present(ds) + (match d case Some(e) => [e] case None => [])
  {
    assert (ds + [d])[..|ds + [d]| - 1] == ds;
  }

  /** The first loop of `_fill_inspection_matrix`: `inspection_sections`. */
  function Qualifying(sections: seq<Section>): Outcome<seq<Entry>> {
    var ds :- MapAll(sections, Qualify);
    Ok(Present(ds))
  }

  /** `section['name'][:30]` in the debug listing: only strings and lists
      can be sliced; any other name raises. */
  predicate Sliceable(v: Json) { v.JStr? || v.JArr? }

  /** The entries the grid loop sees, or `Raised` when qualification or the
      debug listing raises (the fillers then write nothing). */
  function MatrixRows(sections: seq<Section>): Outcome<seq<Entry>> {
    var es :- Qualifying(sections);
    if forall j :: 0 <= j < |es| ==> Sliceable(es[j].name) then Ok(es) else Raised
  }

  /** The grid column of a status code. */
  function Offset(status: string): Option<nat> {
    if status == "I" then Some(0)
    else if status == "NI" then Some(1)
    else if status == "NP" then Some(2)
    else if status == "D" then Some(3)
    else None
  }

  /** The grid slot of row `i` (`base_index + offset`, four columns per row:
      I, NI, NP and D), if its status is one of the four codes. */
  function Slot(i: nat, status: string): (r: Option<nat>)
    ensures r.Some? ==> r.value / 4 == i && Offset(status) == Some(r.value % 4)
    ensures r.None? <==> Offset(status).None?
  {
    match Offset(status)
    case Some(k) => Some(4 * i + k)
    case None => None
  }

  // ---------------------------------------------------------------------
  // report.py

  /** The `checkbox_data` of row `i` in `report.py`. */
  function RowWrite(i: nat, status: string, catalog: seq<string>): map<string, Json> {
    match Slot(i, status)
    case Some(t) => if CheckBoxName(t) in catalog then map[CheckBoxName(t) := Checked] else map[]
    case None => map[]
  }

  /** The merged writes of the first `n` grid rows. */
  function MatrixWrites(entries: seq<Entry>, catalog: seq<string>, n: nat): (r: map<string, Json>)
    requires n <= |entries|
    ensures forall f :: f in r ==> f in catalog && r[f] == Checked
  {
    if n == 0 then map[]
    else MatrixWrites(entries, catalog, n - 1) + RowWrite(n - 1, entries[n - 1].status, catalog)
  }

  /** What `_fill_inspection_matrix` of `report.py` writes. */
  function MatrixFill(sections: seq<Section>, catalog: seq<string>): map<string, Json> {
    match MatrixRows(sections)
    case Raised => map[]
    case Ok(es) => MatrixWrites(es, catalog, Min(MaxSections, |es|))
  }

  /** The first loop both fillers share: collect `inspection_sections`. */
  method QualifyingSections(sections: seq<Section>) returns (rows: Outcome<seq<Entry>>)
    ensures rows == Qualifying(sections)
  {
    var entries: seq<Entry> := [];
    ghost var ds: seq<Option<Entry>> := [];
    var i := 0;
    while i < |sections|
      invariant 0 <= i <= |sections|
      invariant MapAll(sections[..i], Qualify) == Ok(ds)
      invariant entries == Present(ds)
    {
      var d := QualifySection(sections[i]);
      if d.Raised? {
        RaisedAt(sections, i, Qualify);
        return Raised;
      }
      if d.value.Some? {
        entries := entries + [d.value.value];
      }
      OkAt(sections, i, Qualify);
      PresentSnoc(ds, d.value);
      ds := ds + [d.value];
      i := i + 1;
    }
    assert sections[..i] == sections;
    return Ok(entries);
  }

  /** One pass of the collecting loop: the first line item's status decides
      whether the section is appended. */
  method QualifySection(section: Section) returns (d: Outcome<Option<Entry>>)
    ensures d == Qualify(section)
  {
    d := Ok(None);
    var lineItems := section.lineItems;
    if lineItems != [] {
      var first := lineItems[0];
      var status := first.inspectionStatus;
      if Truthy(status) {
        if !status.JStr? {
          return Raised;
        }
        if Strip(status.s) != "" {
          d := Ok(Some(Entry(section.name, status.s, first.isDeficient)));
        }
      }
    }
  }

  /** The debug listing both fillers print next; it gets through exactly
      when every name can be sliced. */
  method ListRows(entries: seq<Entry>) returns (ok: bool)
    ensures ok <==> forall k :: 0 <= k < |entries| ==> Sliceable(entries[k].name)
  {
    var j := 0;
    while j < |entries|
      invariant 0 <= j <= |entries|
      invariant forall k :: 0 <= k < j ==> Sliceable(entries[k].name)
    {
      if !Sliceable(entries[j].name) {
        return false;
      }
      j := j + 1;
    }
    return true;
  }

  /** Both first loops: the rows the grid loop sees. */
  method CollectRows(sections: seq<Section>) returns (rows: Outcome<seq<Entry>>)
    ensures rows == MatrixRows(sections)
  {
    rows := QualifyingSections(sections);
    if rows.Ok? {
      var ok := ListRows(rows.value);
      if !ok {
        rows := Raised;
      }
    }
  }

  /** `_fill_inspection_matrix` of `report.py`: collect the qualifying
      sections, then walk the first twelve and write the one checkbox each
      one's status selects. */
  method FillInspectionMatrix(sections: seq<Section>, catalog: seq<string>) returns (writes: map<string, Json>)
    ensures writes == MatrixFill(sections, catalog)
  {
    var rows := CollectRows(sections);
    if rows.Raised? {
      return map[];
    }
    writes := FillGrid(rows.value, catalog);
  }

  /** The grid loop of `report.py` over the collected rows. */
  method FillGrid(entries: seq<Entry>, catalog: seq<string>) returns (writes: map<string, Json>)
    ensures writes == MatrixWrites(entries, catalog, Min(MaxSections, |entries|))
  {
    writes := map[];
    var n := Min(MaxSections, |entries|);
    var i := 0;
    while i < n
      invariant 0 <= i <= n
      invariant writes == MatrixWrites(entries, catalog, i)
    {
      var checkboxData := GridRow(i, entries[i].status, catalog);
      if checkboxData != map[] {
        writes := writes + checkboxData;
      } else {
        assert writes + checkboxData == writes;
      }
      i := i + 1;
    }
  }

  /** One pass of the grid loop of `report.py`: the `if`/`elif` chain over
      the four status codes. */
  method GridRow(i: nat, status: string, catalog: seq<string>) returns (checkboxData: map<string, Json>)
    ensures checkboxData == RowWrite(i, status, catalog)
  {
    var base := 4 * i;
    checkboxData := map[];
    if status == "I" && CheckBoxName(base) in catalog {
      checkboxData := checkboxData[CheckBoxName(base) := Checked];
    } else if status == "NI" && CheckBoxName(base + 1) in catalog {
      checkboxData := checkboxData[CheckBoxName(base + 1) := Checked];
    } else if status == "NP" && CheckBoxName(base + 2) in catalog {
      checkboxData := checkboxData[CheckBoxName(base + 2) := Checked];
    } else if status == "D" && CheckBoxName(base + 3) in catalog {
      checkboxData := checkboxData[CheckBoxName(base + 3) := Checked];
    }
  }

  /** A section qualifies exactly when it has a line item and the first
      one's status is a string with a non-whitespace character; it raises
      exactly when that status is truthy but not a string. */
  lemma QualifyIff(s: Section)
    ensures (Qualify(s).Ok? && Qualify(s).value.Some?) <==>
      s.lineItems != [] && s.lineItems[0].inspectionStatus.JStr? && !AllSpace(s.lineItems[0].inspectionStatus.s)
    ensures Qualify(s).Raised? <==>
      s.lineItems != [] && Truthy(s.lineItems[0].inspectionStatus) && !s.lineItems[0].inspectionStatus.JStr?
    ensures Qualify(s).Ok? && Qualify(s).value.Some? ==>
      Qualify(s).value.value.status == s.lineItems[0].inspectionStatus.s
  {
    if s.lineItems != [] && s.lineItems[0].inspectionStatus.JStr? {
      StripEmptyIffBlank(s.lineItems[0].inspectionStatus.s);
    }
  }

  /** Line items after the first never influence qualification. */
  lemma QualifyIgnoresLaterItems(s: Section, t: Section)
    requires s.name == t.name
    requires (s.lineItems == []) == (t.lineItems == [])
    requires s.lineItems != [] ==> s.lineItems[0] == t.lineItems[0]
    ensures Qualify(s) == Qualify(t)
  {
    if s.lineItems != [] {
      assert s.lineItems[0].inspectionStatus == t.lineItems[0].inspectionStatus;
    }
  }

  /** The grid writes of `report.py`, slot by slot: `CheckBox1[slot]` is
      written exactly when its row is among the first `n`, that row's status
      selects the slot's column, and the catalog lists the name. */
  lemma {:induction false} MatrixWritesSlot(entries: seq<Entry>, catalog: seq<string>, n: nat, slot: nat)
    requires n <= |entries|
    ensures CheckBoxName(slot) in MatrixWrites(entries, catalog, n) <==>
      slot / 4 < n && Offset(entries[slot / 4].status) == Some(slot % 4) && CheckBoxName(slot) in catalog
  {
    if n > 0 {
      MatrixWritesSlot(entries, catalog, n - 1, slot);
      match Slot(n - 1, entries[n - 1].status)
      case Some(t) =>
        if CheckBoxName(slot) == CheckBoxName(t) {
          CheckBoxNameInjective(slot, t);
        }
        if slot / 4 == n - 1 && Offset(entries[slot / 4].status) == Some(slot % 4) {
          assert slot == t;
        }
      case None =>
    }
  }

  /** Every write of `report.py` is some grid slot of one of the first `n`
      rows, and a row writes at most one of its four slots. */
  lemma {:induction false} MatrixWritesShape(entries: seq<Entry>, catalog: seq<string>, n: nat, f: string)
    requires n <= |entries|
    requires f in MatrixWrites(entries, catalog, n)
    ensures exists slot: nat :: slot / 4 < n && f == CheckBoxName(slot)
  {
    var w := MatrixWrites(entries, catalog, n - 1);
    var row := RowWrite(n - 1, entries[n - 1].status, catalog);
    if f in row {
      var t := Slot(n - 1, entries[n - 1].status).value;
      assert f == CheckBoxName(t) && t / 4 < n;
    } else {
      MatrixWritesShape(entries, catalog, n - 1, f);
      var slot: nat :| slot / 4 < n - 1 && f == CheckBoxName(slot);
      assert slot / 4 < n;
    }
  }

  /** `report.py` writes at most one slot per processed row, never a slot
      of a row past the twelfth qualifying section, and never a slot whose
      row's status is not one of I, NI, NP, D. */
  lemma MatrixFillSlots(sections: seq<Section>, catalog: seq<string>, a: nat, b: nat)
    ensures CheckBoxName(a) in MatrixFill(sections, catalog) ==>
      MatrixRows(sections).Ok? && a / 4 < MaxSections && a / 4 < |MatrixRows(sections).value|
      && Offset(MatrixRows(sections).value[a / 4].status) == Some(a % 4)
      && CheckBoxName(a) in catalog
    ensures (CheckBoxName(a) in MatrixFill(sections, catalog) && CheckBoxName(b) in MatrixFill(sections, catalog)
             && a / 4 == b / 4) ==> a == b
  {
    match MatrixRows(sections)
    case Raised =>
    case Ok(es) =>
      var n := Min(MaxSections, |es|);
      MatrixWritesSlot(es, catalog, n, a);
      MatrixWritesSlot(es, catalog, n, b);
  }

  /** The deficiency flag never changes what the grid writes. */
  lemma {:induction false} MatrixIgnoresDeficient(entries: seq<Entry>, others: seq<Entry>, catalog: seq<string>, n: nat)
    requires n <= |entries| == |others|
    requires forall j :: 0 <= j < |entries| ==> entries[j].status == others[j].status
    ensures MatrixWrites(entries, catalog, n) == MatrixWrites(others, catalog, n)
  {
    if n > 0 {
      MatrixIgnoresDeficient(entries, others, catalog, n - 1);
    }
  }

  // ---------------------------------------------------------------------
  // working-1.py

  /** The catalog names that contain `pat`, in catalog order. */
  function Matching(catalog: seq<string>, pat: string): (r: seq<string>)
    ensures |r| <= |catalog|
  {
    if catalog == [] then []
    else
      var last := catalog[|catalog| - 1];
      Matching(catalog[..|catalog| - 1], pat) + (if Contains(last, pat) then [last] else [])
  }

  lemma MatchingSnoc(catalog: seq<string>, n: string, pat: string)
    ensures Matching(catalog + [n], pat) == Matching(catalog, pat) + (if Contains(n, pat) then [n] else [])
  {
    assert (catalog + [n])[..|catalog + [n]| - 1] == catalog;
  }

  /** `Matching` keeps exactly the catalog names containing the pattern,
      and its first element is the first such name in catalog order. */
  lemma {:induction false} MatchingFirst(catalog: seq<string>, pat: string)
    ensures forall n :: n in Matching(catalog, pat) <==> n in catalog && Contains(n, pat)
    ensures Matching(catalog, pat) != [] ==>
      exists j :: 0 <= j < |catalog| && catalog[j] == Matching(catalog, pat)[0] && Contains(catalog[j], pat)
        && forall k :: 0 <= k < j ==> !Contains(catalog[k], pat)
  {
    if catalog != [] {
      var init := catalog[..|catalog| - 1];
      var last := catalog[|catalog| - 1];
      MatchingFirst(init, pat);
      assert catalog == init + [last];
      if Matching(init, pat) != [] {
        var j :| 0 <= j < |init| && init[j] == Matching(init, pat)[0] && Contains(init[j], pat)
          && forall k :: 0 <= k < j ==> !Contains(init[k], pat);
        assert catalog[j] == init[j];
        assert forall k :: 0 <= k < j ==> catalog[k] == init[k];
      } else if Contains(last, pat) {
        assert forall k :: 0 <= k < |init| ==> init[k] in init && catalog[k] == init[k];
      }
    }
  }

  /** The first candidate that the catalog lists. */
  function FirstListed(candidates: seq<string>, catalog: seq<string>): (r: Option<string>)
    ensures r.Some? ==> r.value in candidates && r.value in catalog
  {
    if candidates == [] then None
    else if candidates[0] in catalog then Some(candidates[0])
    else FirstListed(candidates[1..], catalog)
  }

  /** `target_field_patterns` for slot `t`: the slot's own name, then every
      catalog name containing it. */
  function Candidates(t: nat, catalog: seq<string>): seq<string> {
    [CheckBoxName(t)] + Matching(catalog, CheckBoxName(t))
  }

  /** The field `working-1.py` checks for slot `t`, if any. */
  function ChosenField(t: nat, catalog: seq<string>): Option<string> {
    FirstListed(Candidates(t, catalog), catalog)
  }

  /** The chosen field is the slot's own name when the catalog lists it,
      and otherwise the first catalog name containing that name; there is
      none exactly when no catalog name contains it. */
  lemma ChosenFieldIsFirstMatch(t: nat, catalog: seq<string>)
    ensures CheckBoxName(t) in catalog ==> ChosenField(t, catalog) == Some(CheckBoxName(t))
    ensures ChosenField(t, catalog).Some? ==>
      ChosenField(t, catalog).value in catalog && Contains(ChosenField(t, catalog).value, CheckBoxName(t))
    ensures ChosenField(t, catalog).None? <==> forall n :: n in catalog ==> !Contains(n, CheckBoxName(t))
    ensures CheckBoxName(t) !in catalog && ChosenField(t, catalog).Some? ==>
      exists j :: 0 <= j < |catalog| && catalog[j] == ChosenField(t, catalog).value
        && forall k :: 0 <= k < j ==> !Contains(catalog[k], CheckBoxName(t))
  {
    var pat := CheckBoxName(t);
    var m := Matching(catalog, pat);
    MatchingFirst(catalog, pat);
    assert Contains(pat, pat);
    var cs := Candidates(t, catalog);
    assert cs[1..] == m;
    if pat !in catalog && m != [] {
      assert m[0] in catalog;
      assert FirstListed(cs, catalog) == FirstListed(m, catalog) == Some(m[0]);
    }
    if pat !in catalog && m == [] {
      assert FirstListed(cs, catalog) == FirstListed([], catalog);
    }
  }

  /** The two loops of `working-1.py` that pick the field for a target
      slot: gather the candidates, then take the first that is listed. */
  method FindCheckboxField(t: nat, catalog: seq<string>) returns (found: Option<string>)
    ensures found == ChosenField(t, catalog)
  {
    var pat := CheckBoxName(t);
    var patterns := [pat];
    var j := 0;
    while j < |catalog|
      invariant 0 <= j <= |catalog|
      invariant patterns == [pat] + Matching(catalog[..j], pat)
    {
      MatchingSnoc(catalog[..j], catalog[j], pat);
      assert catalog[..j + 1] == catalog[..j] + [catalog[j]];
      if Contains(catalog[j], pat) {
        patterns := patterns + [catalog[j]];
      }
      j := j + 1;
    }
    assert catalog[..j] == catalog;
    found := None;
    var i := 0;
    while i < |patterns|
      invariant 0 <= i <= |patterns|
      invariant FirstListed(patterns[i..], catalog) == FirstListed(patterns, catalog)
    {
      if patterns[i] in catalog {
        found := Some(patterns[i]);
        return;
      }
      assert patterns[i..][1..] == patterns[i + 1..];
      i := i + 1;
    }
  }

  /** The `checkbox_data` of row `i` in `working-1.py`: the first catalog
      candidate for the row's slot, set to the first alias. */
  function RowUpdate(i: nat, status: string, catalog: seq<string>): map<string, Json> {
    match Slot(i, status)
    case None => map[]
    case Some(t) =>
      match ChosenField(t, catalog)
      case None => map[]
      case Some(f) => map[f := JStr(CheckedAlias)]
  }

  /** A row hands on at most one field: a catalog name containing the name
      of the row's slot, set to the first alias. */
  lemma RowUpdateShape(i: nat, status: string, catalog: seq<string>, f: string)
    ensures |RowUpdate(i, status, catalog)| <= 1
    ensures f in RowUpdate(i, status, catalog) ==>
      RowUpdate(i, status, catalog)[f] == JStr(CheckedAlias) && f in catalog && Slot(i, status).Some? &&
      Contains(f, CheckBoxName(Slot(i, status).value))
  {
    match Slot(i, status)
    case None =>
    case Some(t) => ChosenFieldIsFirstMatch(t, catalog);
  }

  /** The field values the first `n` rows hand to the form update, merged
      in row order. */
  function AliasWrites(entries: seq<Entry>, catalog: seq<string>, n: nat): (r: map<string, Json>)
    requires n <= |entries|
    ensures forall f :: f in r ==> f in catalog && r[f] == JStr(CheckedAlias)
  {
    if n == 0 then map[]
    else AliasWrites(entries, catalog, n - 1) + RowUpdate(n - 1, entries[n - 1].status, catalog)
  }

  /** What `_fill_inspection_matrix` of `working-1.py` writes. */
  function MatrixFillAliased(sections: seq<Section>, catalog: seq<string>): map<string, Json> {
    match MatrixRows(sections)
    case Raised => map[]
    case Ok(es) => AliasWrites(es, catalog, Min(MaxSections, |es|))
  }

  /** `_fill_inspection_matrix` of `working-1.py`: the same qualification
      and listing, then for each of the first twelve rows the first-match
      field search, a one-entry update with the first alias, and the
      appearance-state repair of every annotation on every page. */
  method FillInspectionMatrixAliased(sections: seq<Section>, catalog: seq<string>, annots: seq<Annotation>)
    returns (writes: map<string, Json>)
    modifies set a | a in annots
    ensures writes == MatrixFillAliased(sections, catalog)
    ensures forall a :: a in annots ==> a.entries == SetStateEntry(old(a.entries), writes)
  {
    var rows := CollectRows(sections);
    if rows.Raised? {
      forall a | a in annots ensures SetStateEntry(a.entries, map[]) == a.entries {
        assert MatchedValue(a.entries, map[]).None?;
      }
      return map[];
    }
    writes := FillGridAliased(rows.value, catalog, annots);
  }

  /** The grid loop of `working-1.py` over the collected rows. */
  method FillGridAliased(entries: seq<Entry>, catalog: seq<string>, annots: seq<Annotation>)
    returns (writes: map<string, Json>)
    modifies set a | a in annots
    ensures writes == AliasWrites(entries, catalog, Min(MaxSections, |entries|))
    ensures forall a :: a in annots ==> a.entries == SetStateEntry(old(a.entries), writes)
  {
    ghost var orig := map a | a in annots :: a.entries;
    writes := map[];
    forall a | a in annots ensures a.entries == SetStateEntry(orig[a], map[]) {
      assert MatchedValue(a.entries, map[]).None?;
    }
    var n := Min(MaxSections, |entries|);
    var i := 0;
    while i < n
      invariant 0 <= i <= n
      invariant writes == AliasWrites(entries, catalog, i)
      invariant forall a :: a in annots ==> a.entries == SetStateEntry(orig[a], writes)
    {
      var checkboxData := AliasedRow(i, entries[i].status, catalog);
      ApplyRow(annots, orig, writes, checkboxData);
      writes := writes + checkboxData;
      i := i + 1;
    }
  }

  /** Hands one row's update to the appearance-state repair, when the row
      produced one; the annotations then reflect every update so far. */
  method ApplyRow(annots: seq<Annotation>, ghost orig: map<Annotation, map<string, PdfObj>>,
                  ghost before: map<string, Json>, checkboxData: map<string, Json>)
    requires forall a :: a in annots ==> a in orig && a.entries == SetStateEntry(orig[a], before)
    requires forall f :: f in checkboxData ==> checkboxData[f].JStr?
    modifies set a | a in annots
    ensures forall a :: a in annots ==> a.entries == SetStateEntry(orig[a], before + checkboxData)
  {
    if checkboxData != map[] {
      SetCheckboxAppearanceState(annots, checkboxData);
      forall a | a in annots ensures a.entries == SetStateEntry(orig[a], before + checkboxData) {
        SetStateMerge(orig[a], before, checkboxData);
      }
    } else {
      assert before + checkboxData == before;
    }
  }

  /** One pass of the grid loop of `working-1.py`: the target slot, the
      field search and the update. */
  method AliasedRow(i: nat, status: string, catalog: seq<string>) returns (checkboxData: map<string, Json>)
    ensures checkboxData == RowUpdate(i, status, catalog)
  {
    var base := 4 * i;
    var target: Option<nat> := None;
    if status == "I" {
      target := Some(base);
    } else if status == "NI" {
      target := Some(base + 1);
    } else if status == "NP" {
      target := Some(base + 2);
    } else if status == "D" {
      target := Some(base + 3);
    }
    assert target == Slot(i, status);
    checkboxData := map[];
    if target.Some? {
      var found := FindCheckboxField(target.value, catalog);
      if found.Some? {
        checkboxData := checkboxData[found.value := JStr(CheckedAlias)];
      }
    }
  }

  /** Row by row, `working-1.py` writes the field `report.py` writes
      whenever the catalog lists the slot's own name (and, by the contract
      of `RowUpdate`, writes nothing else). */
  lemma RowsAgree(i: nat, status: string, catalog: seq<string>, f: string)
    ensures f in RowWrite(i, status, catalog) ==> f in RowUpdate(i, status, catalog)
  {
    match Slot(i, status)
    case None =>
    case Some(t) =>
      ChosenFieldIsFirstMatch(t, catalog);
  }

  /** When no catalog name merely contains a grid name, a row of both
      variants writes the same field. */
  lemma RowsSame(i: nat, status: string, catalog: seq<string>, f: string)
    requires forall m, t :: m in catalog && Contains(m, CheckBoxName(t)) ==> m == CheckBoxName(t)
    ensures f in RowWrite(i, status, catalog) <==> f in RowUpdate(i, status, catalog)
  {
    match Slot(i, status)
    case None =>
    case Some(t) =>
      ChosenFieldIsFirstMatch(t, catalog);
      if ChosenField(t, catalog).Some? {
        assert ChosenField(t, catalog).value == CheckBoxName(t);
      }
  }

  /** A field is written by the first `n` rows when it is written by the
      first `n - 1` or by the last. */
  lemma WritesStep(entries: seq<Entry>, catalog: seq<string>, n: nat, f: string)
    requires 0 < n <= |entries|
    ensures f in MatrixWrites(entries, catalog, n) <==>
      f in MatrixWrites(entries, catalog, n - 1) || f in RowWrite(n - 1, entries[n - 1].status, catalog)
    ensures f in AliasWrites(entries, catalog, n) <==>
      f in AliasWrites(entries, catalog, n - 1) || f in RowUpdate(n - 1, entries[n - 1].status, catalog)
  {
  }

  /** One row of `VariantsInclude`. */
  lemma IncludeStep(entries: seq<Entry>, catalog: seq<string>, n: nat, f: string)
    requires 0 < n <= |entries|
    requires f in MatrixWrites(entries, catalog, n - 1) ==> f in AliasWrites(entries, catalog, n - 1)
    ensures f in MatrixWrites(entries, catalog, n) ==> f in AliasWrites(entries, catalog, n)
  {
    RowsAgree(n - 1, entries[n - 1].status, catalog, f);
    WritesStep(entries, catalog, n, f);
  }

  /** Over the first `n` rows, every field `report.py` writes is one
      `working-1.py` writes too. */
  lemma VariantsInclude(entries: seq<Entry>, catalog: seq<string>, n: nat, f: string)
    requires n <= |entries|
    ensures f in MatrixWrites(entries, catalog, n) ==> f in AliasWrites(entries, catalog, n)
  {
    var k := 0;
    while k < n
      invariant k <= n
      invariant f in MatrixWrites(entries, catalog, k) ==> f in AliasWrites(entries, catalog, k)
    {
      IncludeStep(entries, catalog, k + 1, f);
      k := k + 1;
    }
  }

  /** One row of `VariantsSame`. */
  lemma SameStep(entries: seq<Entry>, catalog: seq<string>, n: nat, f: string)
    requires 0 < n <= |entries|
    requires forall m, t :: m in catalog && Contains(m, CheckBoxName(t)) ==> m == CheckBoxName(t)
    requires f in MatrixWrites(entries, catalog, n - 1) <==> f in AliasWrites(entries, catalog, n - 1)
    ensures f in MatrixWrites(entries, catalog, n) <==> f in AliasWrites(entries, catalog, n)
  {
    RowsSame(n - 1, entries[n - 1].status, catalog, f);
    WritesStep(entries, catalog, n, f);
  }

  /** When no catalog name merely contains a grid name, both variants
      write the same fields over the first `n` rows. */
  lemma VariantsSame(entries: seq<Entry>, catalog: seq<string>, n: nat, f: string)
    requires n <= |entries|
    requires forall m, t :: m in catalog && Contains(m, CheckBoxName(t)) ==> m == CheckBoxName(t)
    ensures f in MatrixWrites(entries, catalog, n) <==> f in AliasWrites(entries, catalog, n)
  {
    var k := 0;
    while k < n
      invariant k <= n
      invariant f in MatrixWrites(entries, catalog, k) <==> f in AliasWrites(entries, catalog, k)
    {
      SameStep(entries, catalog, k + 1, f);
      k := k + 1;
    }
  }
}
