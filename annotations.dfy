/** The annotation-dictionary repair of `working-1.py`: the widget
    annotations of the output document as string-keyed dictionaries that the
    repair steps update in place, and the choice of a checkbox's export
    value from its field dictionary. */
module Annotations {
  import opened JsonValues
  import opened Text

  /** A PDF object as the repair steps see it. A nested dictionary keeps
      its keys in insertion order (the order of `/N`'s keys is observable
      through the export-value choice). Booleans and null are not modelled. */
  datatype PdfObj =
    | PName(name: string)
    | PStr(text: string)
    | PInt(n: int)
    | PArr(items: seq<PdfObj>)
    | PDict(entries: seq<(string, PdfObj)>)

  /** `o == s` for a Python string `s`: PDF names and text strings are
      `str` subclasses and compare equal to their text; other objects never
      equal a string. */
  predicate NameIs(o: PdfObj, s: string) {
    o == PName(s) || o == PStr(s)
  }

  /** Python truthiness of a PDF object. */
  predicate PdfTruthy(o: PdfObj) {
    match o
    case PName(s) => s != ""
    case PStr(s) => s != ""
    case PInt(n) => n != 0
    case PArr(items) => items != []
    case PDict(es) => es != []
  }

  /** `str(o)` where the result can name a field: the text of a name or a
      string and the digits of an integer. The text Python prints for a
      list or a dictionary is not modelled; such a title names no field. */
  function TitleString(o: PdfObj): Option<string> {
    match o
    case PName(s) => Some(s)
    case PStr(s) => Some(s)
    case PInt(n) => Some(IntString(n))
    case _ => None
  }

  /** `d[k]` on a nested dictionary: the entry stored under `k`. */
  function Lookup(es: seq<(string, PdfObj)>, k: string): (r: Option<PdfObj>)
    ensures r.Some? <==> k in Keys(es)
  {
    if es == [] then None
    else if es[0].0 == k then Some(es[0].1)
    else Lookup(es[1..], k)
  }

  /** `list(d.keys())`. */
  function Keys(es: seq<(string, PdfObj)>): (r: seq<string>)
    ensures |r| == |es|
    ensures forall i :: 0 <= i < |es| ==> r[i] == es[i].0
  {
    if es == [] then [] else [es[0].0] + Keys(es[1..])
  }

  /** `d[k] = v` on a nested dictionary that already holds `k`: the value
      is replaced where it stands. */
  function Replace(es: seq<(string, PdfObj)>, k: string, v: PdfObj): (r: seq<(string, PdfObj)>)
    ensures Keys(r) == Keys(es)
    ensures k in Keys(es) ==> Lookup(r, k) == Some(v)
    ensures forall j :: j != k ==> Lookup(r, j) == Lookup(es, j)
  {
    if es == [] then []
    else if es[0].0 == k then [(k, v)] + es[1..]
    else [es[0]] + Replace(es[1..], k, v)
  }

  /** `d[k] = v` on a nested dictionary: replaces the value of a present
      key, appends an absent one. */
  function Store(es: seq<(string, PdfObj)>, k: string, v: PdfObj): (r: seq<(string, PdfObj)>)
    ensures Lookup(r, k) == Some(v)
    ensures forall j :: j != k ==> Lookup(r, j) == Lookup(es, j)
    ensures k in Keys(es) ==> Keys(r) == Keys(es)
    ensures k !in Keys(es) ==> Keys(r) == Keys(es) + [k]
  {
    if k in Keys(es) then Replace(es, k, v)
    else
      LookupAppend(es, k, v);
      KeysAppend(es, k, v);
      es + [(k, v)]
  }

  lemma {:induction false} LookupAppend(es: seq<(string, PdfObj)>, k: string, v: PdfObj)
    requires k !in Keys(es)
    ensures Lookup(es + [(k, v)], k) == Some(v)
    ensures forall j :: j != k ==> Lookup(es + [(k, v)], j) == Lookup(es, j)
  {
    if es != [] {
      assert (es + [(k, v)])[1..] == es[1..] + [(k, v)];
      assert Keys(es) == [es[0].0] + Keys(es[1..]);
      LookupAppend(es[1..], k, v);
    }
  }

  lemma KeysAppend(es: seq<(string, PdfObj)>, k: string, v: PdfObj)
    ensures Keys(es + [(k, v)]) == Keys(es) + [k]
  {
  }

  /** The key `/AP`'s `/N` dictionary gets when the checked appearance is
      created: an XObject form over a 1000 by 1000 box (the drawing
      instructions themselves are not modelled). */
  const CheckedAppearance: PdfObj := PDict([
    ("/Type", PStr("/XObject")),
    ("/Subtype", PStr("/Form")),
    ("/BBox", PArr([PInt(0), PInt(0), PInt(1000), PInt(1000)])),
    ("/Length", PInt(44))
  ])

  /** The annotation's entry under `k`, or `d` when it has none
      (`annot.get(k, d)`). */
  function GetOr(e: map<string, PdfObj>, k: string, d: PdfObj): PdfObj {
    if k in e then e[k] else d
  }

  /** `'/Subtype' in annot and annot['/Subtype'] == '/Widget'`. */
  predicate IsWidget(e: map<string, PdfObj>) {
    "/Subtype" in e && NameIs(e["/Subtype"], "/Widget")
  }

  /** `'/FT' in annot and annot['/FT'] == '/Btn'`. */
  predicate IsButton(e: map<string, PdfObj>) {
    "/FT" in e && NameIs(e["/FT"], "/Btn")
  }

  // ---------------------------------------------------------------------
  // _set_checkbox_appearance_state

  /** The appearance state a checkbox value selects: the three known
      aliases with or without their slash, otherwise the value itself as a
      name. */
  function AppearanceState(v: string): (r: string)
    ensures v == "Yes" || v == "/Yes" ==> r == "/Yes"
    ensures v == "On" || v == "/On" ==> r == "/On"
    ensures v == "1" || v == "/1" ==> r == "/1"
    ensures v !in {"Yes", "/Yes", "On", "/On", "1", "/1"} ==> r == "/" + v
  {
    if v == "Yes" || v == "/Yes" then "/Yes"
    else if v == "On" || v == "/On" then "/On"
    else if v == "1" || v == "/1" then "/1"
    else "/" + v
  }

  /** The checkbox value that `data` holds for this annotation, when it is
      a button widget whose title `data` names and whose value is a string
      (`'/' + value` raises on any other value and the annotation is left
      as it was). */
  function MatchedValue(e: map<string, PdfObj>, data: map<string, Json>): Option<string> {
    if !IsWidget(e) then None
    else
      var name := TitleString(GetOr(e, "/T", PStr("")));
      if NameIs(GetOr(e, "/FT", PStr("")), "/Btn") && name.Some? && name.value in data && data[name.value].JStr? then
        Some(data[name.value].s)
      else None
  }

  /** One annotation after `_set_checkbox_appearance_state`. */
  function SetStateEntry(e: map<string, PdfObj>, data: map<string, Json>): map<string, PdfObj> {
    match MatchedValue(e, data)
    case None => e
    case Some(v) => e["/V" := PName("/" + v)]["/AS" := PName(AppearanceState(v))]
  }

  /** A matched button ends up with the value and the appearance state the
      checkbox data selects; nothing else about any annotation changes. */
  lemma SetStateEffect(e: map<string, PdfObj>, data: map<string, Json>)
    ensures MatchedValue(e, data).Some? ==>
      SetStateEntry(e, data)["/V"] == PName("/" + MatchedValue(e, data).value) &&
      SetStateEntry(e, data)["/AS"] == PName(AppearanceState(MatchedValue(e, data).value))
    ensures MatchedValue(e, data).None? ==> SetStateEntry(e, data) == e
    ensures forall k :: k != "/V" && k != "/AS" ==>
      (k in SetStateEntry(e, data) <==> k in e) && (k in e ==> SetStateEntry(e, data)[k] == e[k])
  {
  }

  /** Setting the state twice is setting it once, so an annotation listed
      twice is handled as if it were listed once. */
  lemma SetStateIdempotent(e: map<string, PdfObj>, data: map<string, Json>)
    ensures SetStateEntry(SetStateEntry(e, data), data) == SetStateEntry(e, data)
  {
    var e1 := SetStateEntry(e, data);
    if MatchedValue(e, data).Some? {
      assert e1["/Subtype"] == e["/Subtype"];
      assert GetOr(e1, "/T", PStr("")) == GetOr(e, "/T", PStr(""));
      assert GetOr(e1, "/FT", PStr("")) == GetOr(e, "/FT", PStr(""));
      assert MatchedValue(e1, data) == MatchedValue(e, data);
    }
  }

  /** Setting the state for `d1` and then for `d2` is setting it once for
      the merged data, when `d2` holds only strings: a later value replaces
      both the `/V` and the `/AS` an earlier one set. */
  lemma SetStateMerge(e: map<string, PdfObj>, d1: map<string, Json>, d2: map<string, Json>)
    requires forall f :: f in d2 ==> d2[f].JStr?
    ensures SetStateEntry(SetStateEntry(e, d1), d2) == SetStateEntry(e, d1 + d2)
  {
    var e1 := SetStateEntry(e, d1);
    if IsWidget(e) {
      assert IsWidget(e1);
      assert GetOr(e1, "/T", PStr("")) == GetOr(e, "/T", PStr(""));
      assert GetOr(e1, "/FT", PStr("")) == GetOr(e, "/FT", PStr(""));
      var name := TitleString(GetOr(e, "/T", PStr("")));
      if name.Some? && name.value in d2 {
        assert MatchedValue(e1, d2) == MatchedValue(e, d1 + d2);
      } else {
        assert MatchedValue(e1, d2).None?;
        assert MatchedValue(e, d1 + d2) == MatchedValue(e, d1);
      }
    }
  }

  // ---------------------------------------------------------------------
  // _flatten_all_form_fields_completely

  /** The ten interactive keys flattening deletes. */
  const InteractiveKeys: set<string> :=
    {"/AA", "/A", "/BS", "/H", "/MK", "/Parent", "/Kids", "/TI", "/TM", "/TU"}

  /** Whether flattening touches this annotation: a widget with a truthy
      `/V`. */
  predicate FlattenTarget(e: map<string, PdfObj>) {
    IsWidget(e) && PdfTruthy(GetOr(e, "/V", PStr("")))
  }

  /** One annotation after `_flatten_all_form_fields_completely`. */
  function FlattenAllEntry(e: map<string, PdfObj>): map<string, PdfObj> {
    if !FlattenTarget(e) then e
    else
      var fieldType := GetOr(e, "/FT", PStr(""));
      var flags := (e - InteractiveKeys)["/Ff" := PInt(1)]["/F" := PInt(4)];
      if NameIs(fieldType, "/Tx") then
        (if "/AP" in flags then flags else flags["/AP" := PDict([])])
      else if NameIs(fieldType, "/Btn") then
        var checked := flags["/AS" := PName("/Yes")];
        if "/AP" in checked then checked else checked["/AP" := PDict([])]
      else flags
  }

  /** Flattening a widget with a value deletes exactly the interactive
      keys, sets the read-only and print flags, checks buttons and gives
      text fields and buttons an appearance dictionary; every other key and
      every other annotation stays as it was. */
  lemma FlattenAllEffect(e: map<string, PdfObj>, k: string)
    ensures !FlattenTarget(e) ==> FlattenAllEntry(e) == e
    ensures FlattenTarget(e) ==>
      var r := FlattenAllEntry(e);
      var ft := GetOr(e, "/FT", PStr(""));
      (k in InteractiveKeys ==> k !in r) &&
      r["/Ff"] == PInt(1) && r["/F"] == PInt(4) &&
      (NameIs(ft, "/Btn") ==> r["/AS"] == PName("/Yes")) &&
      (NameIs(ft, "/Tx") || NameIs(ft, "/Btn") ==> "/AP" in r && ("/AP" in e ==> r["/AP"] == e["/AP"])) &&
      (k !in InteractiveKeys && k !in {"/Ff", "/F", "/AS", "/AP"} ==>
         (k in r <==> k in e) && (k in e ==> r[k] == e[k])) &&
      ("/AS" in e && !NameIs(ft, "/Btn") ==> r["/AS"] == e["/AS"]) &&
      ("/AP" in e ==> r["/AP"] == e["/AP"])
  {
  }

  /** Flattening twice is flattening once. */
  lemma FlattenAllIdempotent(e: map<string, PdfObj>)
    ensures FlattenAllEntry(FlattenAllEntry(e)) == FlattenAllEntry(e)
  {
    var e1 := FlattenAllEntry(e);
    if FlattenTarget(e) {
      assert e1["/Subtype"] == e["/Subtype"];
      assert GetOr(e1, "/V", PStr("")) == GetOr(e, "/V", PStr(""));
      assert GetOr(e1, "/FT", PStr("")) == GetOr(e, "/FT", PStr(""));
      var flags := (e1 - InteractiveKeys)["/Ff" := PInt(1)]["/F" := PInt(4)];
      assert flags == e1;
    }
  }

  // ---------------------------------------------------------------------
  // _flatten_checkboxes_only

  /** The keys flattening a checkbox deletes. */
  const CheckboxFormKeys: set<string> := {"/FT", "/Ff", "/P", "/Parent"}

  /** Whether checkbox flattening touches this annotation: a button widget
      with a truthy `/V`. */
  predicate CheckboxFlattenTarget(e: map<string, PdfObj>) {
    IsWidget(e) && IsButton(e) && "/V" in e && PdfTruthy(e["/V"])
  }

  /** One annotation after `_flatten_checkboxes_only`. */
  function FlattenCheckboxEntry(e: map<string, PdfObj>): map<string, PdfObj> {
    if !CheckboxFlattenTarget(e) then e
    else
      var stripped := e - CheckboxFormKeys;
      if "/AS" in stripped then stripped else stripped["/AS" := e["/V"]]
  }

  /** Checkbox flattening deletes exactly the four form keys, falls back to
      the value for a missing appearance state, and leaves every other key
      and every other annotation alone. */
  lemma FlattenCheckboxEffect(e: map<string, PdfObj>, k: string)
    ensures !CheckboxFlattenTarget(e) ==> FlattenCheckboxEntry(e) == e
    ensures CheckboxFlattenTarget(e) ==>
      var r := FlattenCheckboxEntry(e);
      (k in CheckboxFormKeys ==> k !in r) &&
      r["/AS"] == (if "/AS" in e then e["/AS"] else e["/V"]) &&
      (k !in CheckboxFormKeys && k != "/AS" ==> (k in r <==> k in e) && (k in e ==> r[k] == e[k]))
  {
  }

  /** A flattened checkbox has lost its field type, so a second pass leaves
      it alone. */
  lemma FlattenCheckboxIdempotent(e: map<string, PdfObj>)
    ensures FlattenCheckboxEntry(FlattenCheckboxEntry(e)) == FlattenCheckboxEntry(e)
  {
    if CheckboxFlattenTarget(e) {
      assert "/FT" !in FlattenCheckboxEntry(e);
    }
  }

  // ---------------------------------------------------------------------
  // _create_checkbox_appearances

  /** Whether the appearance step handles this annotation: a button widget
      with a title that the checkbox data names. */
  predicate AppearanceTarget(e: map<string, PdfObj>, data: map<string, Json>) {
    IsWidget(e) && IsButton(e) && "/T" in e &&
    TitleString(e["/T"]).Some? && TitleString(e["/T"]).value in data
  }

  /** Whether `'/Yes' in n` holds for an `/N` entry that is not a
      dictionary: list membership, or a substring test on a string. */
  predicate HoldsYes(n: PdfObj) {
    match n
    case PArr(items) => exists i :: 0 <= i < |items| && NameIs(items[i], "/Yes")
    case PName(s) => Contains(s, "/Yes")
    case PStr(s) => Contains(s, "/Yes")
    case _ => false
  }

  /** `if '/N' not in appearance_dict: appearance_dict['/N'] = {}`. */
  function WithNormal(aes: seq<(string, PdfObj)>): (r: seq<(string, PdfObj)>)
    ensures Lookup(r, "/N").Some?
    ensures "/N" in Keys(aes) ==> r == aes
    ensures "/N" !in Keys(aes) ==> Lookup(r, "/N") == Some(PDict([])) && Keys(r) == Keys(aes) + ["/N"]
  {
    if "/N" in Keys(aes) then aes else Store(aes, "/N", PDict([]))
  }

  /** `if '/Yes' not in normal_appearance: normal_appearance['/Yes'] = ...`. */
  function WithYes(nes: seq<(string, PdfObj)>): (r: seq<(string, PdfObj)>)
    ensures "/Yes" in Keys(r)
    ensures "/Yes" in Keys(nes) ==> r == nes
    ensures "/Yes" !in Keys(nes) ==> Keys(r) == Keys(nes) + ["/Yes"]
    ensures forall j :: j != "/Yes" ==> Lookup(r, j) == Lookup(nes, j)
  {
    if "/Yes" in Keys(nes) then nes else Store(nes, "/Yes", CheckedAppearance)
  }

  /** One annotation after `_create_checkbox_appearances`: an `/AP`
      dictionary (created when missing) whose `/N` dictionary (created when
      missing) has a `/Yes` appearance (created when missing), and `/AS`
      set to `'/Yes'`. When `/AP` or `/N` is there but not a dictionary,
      the first assignment into it raises and the annotation keeps what it
      had, except that an `/N` that already holds `/Yes` lets the `/AS`
      assignment through. */
  function AppearanceEntry(e: map<string, PdfObj>, data: map<string, Json>): map<string, PdfObj> {
    if !AppearanceTarget(e, data) then e
    else
      var ap := GetOr(e, "/AP", PDict([]));
      if !ap.PDict? then e
      else
        var aes := WithNormal(ap.entries);
        var n := Lookup(aes, "/N").value;
        if n.PDict? then e["/AP" := PDict(Store(aes, "/N", PDict(WithYes(n.entries))))]["/AS" := PStr("/Yes")]
        else if HoldsYes(n) then e["/AS" := PStr("/Yes")]
        else e
  }

  /** A handled checkbox whose appearance dictionaries are (or become)
      dictionaries ends with `/AS` set to `'/Yes'` and a `/Yes` entry in
      `/AP`'s `/N`; the existing `/N` entries keep their order and values. */
  lemma AppearanceEffect(e: map<string, PdfObj>, data: map<string, Json>)
    ensures !AppearanceTarget(e, data) ==> AppearanceEntry(e, data) == e
    ensures AppearanceTarget(e, data) && "/AP" !in e ==>
      var r := AppearanceEntry(e, data);
      r["/AS"] == PStr("/Yes") && r["/AP"] == PDict([("/N", PDict([("/Yes", CheckedAppearance)]))])
    ensures AppearanceTarget(e, data) && "/AP" in e && e["/AP"].PDict? &&
            Lookup(e["/AP"].entries, "/N").Some? && Lookup(e["/AP"].entries, "/N").value.PDict? ==>
      var r := AppearanceEntry(e, data);
      var nes := Lookup(e["/AP"].entries, "/N").value.entries;
      r["/AS"] == PStr("/Yes") && r["/AP"].PDict? &&
      Keys(r["/AP"].entries) == Keys(e["/AP"].entries) &&
      Lookup(r["/AP"].entries, "/N").Some? && Lookup(r["/AP"].entries, "/N").value.PDict? &&
      Keys(Lookup(r["/AP"].entries, "/N").value.entries) ==
        (if "/Yes" in Keys(nes) then Keys(nes) else Keys(nes) + ["/Yes"]) &&
      (forall j :: j != "/Yes" ==> Lookup(Lookup(r["/AP"].entries, "/N").value.entries, j) == Lookup(nes, j))
    ensures forall k :: k != "/AP" && k != "/AS" ==>
      (k in AppearanceEntry(e, data) <==> k in e) && (k in e ==> AppearanceEntry(e, data)[k] == e[k])
  {
    if AppearanceTarget(e, data) && "/AP" !in e {
      assert Store([], "/N", PDict([])) == [("/N", PDict([]))];
      assert Store([("/N", PDict([]))], "/N", PDict([("/Yes", CheckedAppearance)])) == [("/N", PDict([("/Yes", CheckedAppearance)]))];
      assert Store([], "/Yes", CheckedAppearance) == [("/Yes", CheckedAppearance)];
    }
  }

  /** Storing the value a key already has changes nothing. */
  lemma {:induction false} ReplaceSame(es: seq<(string, PdfObj)>, k: string, v: PdfObj)
    requires Lookup(es, k) == Some(v)
    ensures Replace(es, k, v) == es
  {
    if es != [] && es[0].0 != k {
      ReplaceSame(es[1..], k, v);
    }
  }

  /** Creating the appearances twice is creating them once. */
  lemma AppearanceIdempotent(e: map<string, PdfObj>, data: map<string, Json>)
    ensures AppearanceEntry(AppearanceEntry(e, data), data) == AppearanceEntry(e, data)
  {
    var e1 := AppearanceEntry(e, data);
    if AppearanceTarget(e, data) {
      var ap := GetOr(e, "/AP", PDict([]));
      if ap.PDict? {
        var aes := WithNormal(ap.entries);
        var n := Lookup(aes, "/N").value;
        if n.PDict? {
          var x := PDict(WithYes(n.entries));
          var aes1 := Store(aes, "/N", x);
          assert e1 == e["/AP" := PDict(aes1)]["/AS" := PStr("/Yes")];
          assert AppearanceTarget(e1, data);
          assert WithNormal(aes1) == aes1;
          assert Lookup(aes1, "/N") == Some(x);
          assert WithYes(x.entries) == x.entries;
          ReplaceSame(aes1, "/N", x);
          assert Store(aes1, "/N", x) == aes1;
        } else {
          assert AppearanceTarget(e1, data);
          assert GetOr(e1, "/AP", PDict([])) == ap;
        }
      }
    }
  }

  // ---------------------------------------------------------------------
  // _determine_checkbox_export_value

  /** The values tried when a field declares none. */
  const DefaultExportValues: seq<string> := ["Yes", "On", "1", "True", "X", "Checked"]

  function Names(ks: seq<string>): (r: seq<PdfObj>)
    ensures |r| == |ks| && forall i :: 0 <= i < |ks| ==> r[i] == PName(ks[i])
  {
    if ks == [] then [] else [PName(ks[0])] + Names(ks[1..])
  }

  function Strings(ks: seq<string>): (r: seq<PdfObj>)
    ensures |r| == |ks| && forall i :: 0 <= i < |ks| ==> r[i] == PStr(ks[i])
  {
    if ks == [] then [] else [PStr(ks[0])] + Strings(ks[1..])
  }

  /** The `/N` dictionary of a field's appearance dictionary, if both are
      dictionaries. */
  function NormalAppearances(fieldInfo: PdfObj): Option<seq<(string, PdfObj)>> {
    match fieldInfo
    case PDict(es) =>
      (match Lookup(es, "/AP")
       case Some(PDict(aes)) =>
         (match Lookup(aes, "/N")
          case Some(PDict(nes)) => Some(nes)
          case _ => None)
       case _ => None)
    case _ => None
  }

  /** `_determine_checkbox_export_value`: the keys of the field's `/AP`
      `/N` dictionary, else its `/Opt` entry, else the default list. */
  function DetermineCheckboxExportValue(fieldInfo: PdfObj): PdfObj {
    match NormalAppearances(fieldInfo)
    case Some(nes) => PArr(Names(Keys(nes)))
    case None =>
      if fieldInfo.PDict? && Lookup(fieldInfo.entries, "/Opt").Some? then Lookup(fieldInfo.entries, "/Opt").value
      else PArr(Strings(DefaultExportValues))
  }

  /** The default export values, in order. */
  lemma DefaultsListed()
    ensures Strings(DefaultExportValues) ==
      [PStr("Yes"), PStr("On"), PStr("1"), PStr("True"), PStr("X"), PStr("Checked")]
  {
    var r := Strings(DefaultExportValues);
    assert r[0] == PStr("Yes") && r[1] == PStr("On") && r[2] == PStr("1");
    assert r[3] == PStr("True") && r[4] == PStr("X") && r[5] == PStr("Checked");
  }

  /** The declared appearance catalog wins: when the field is a dictionary
      whose `/AP` entry is a dictionary whose `/N` entry is a dictionary, the
      result lists exactly the states of that `/N` dictionary in its order.
      Only without it does the field's `/Opt` entry apply, and only without
      that the six default strings. */
  lemma ExportValuePolicy(fieldInfo: PdfObj)
    ensures
      var r := DetermineCheckboxExportValue(fieldInfo);
      var ap := if fieldInfo.PDict? then Lookup(fieldInfo.entries, "/AP") else None;
      var n := if ap.Some? && ap.value.PDict? then Lookup(ap.value.entries, "/N") else None;
      var opt := if fieldInfo.PDict? then Lookup(fieldInfo.entries, "/Opt") else None;
      (n.Some? && n.value.PDict? ==>
         r.PArr? && |r.items| == |n.value.entries| &&
         forall i :: 0 <= i < |n.value.entries| ==>
           r.items[i] == PName(n.value.entries[i].0) && Lookup(n.value.entries, n.value.entries[i].0).Some?) &&
      (!(n.Some? && n.value.PDict?) && opt.Some? ==> r == opt.value) &&
      (!(n.Some? && n.value.PDict?) && opt.None? ==>
         r == PArr([PStr("Yes"), PStr("On"), PStr("1"), PStr("True"), PStr("X"), PStr("Checked")]))
  {
    var ap := if fieldInfo.PDict? then Lookup(fieldInfo.entries, "/AP") else None;
    var n := if ap.Some? && ap.value.PDict? then Lookup(ap.value.entries, "/N") else None;
    assert NormalAppearances(fieldInfo) == if n.Some? && n.value.PDict? then Some(n.value.entries) else None;
    if n.Some? && n.value.PDict? {
      var nes := n.value.entries;
      forall i | 0 <= i < |nes| ensures Lookup(nes, nes[i].0).Some? {
        assert Keys(nes)[i] == nes[i].0;
      }
    } else {
      DefaultsListed();
    }
  }

  // ---------------------------------------------------------------------
  // The annotations of the output document, updated in place

  /** A widget annotation dictionary of the output document. */
  class Annotation {
    var entries: map<string, PdfObj>

    constructor (entries: map<string, PdfObj>)
      ensures this.entries == entries
    {
      this.entries := entries;
    }

    /** The body of the `_set_checkbox_appearance_state` loop for this
        annotation. */
    method SetState(data: map<string, Json>)
      modifies this
      ensures entries == SetStateEntry(old(entries), data)
    {
      if "/Subtype" in entries && NameIs(entries["/Subtype"], "/Widget") {
        var fieldName := TitleString(GetOr(entries, "/T", PStr("")));
        var fieldType := GetOr(entries, "/FT", PStr(""));
        if NameIs(fieldType, "/Btn") && fieldName.Some? && fieldName.value in data {
          var fieldValue := data[fieldName.value];
          if fieldValue.JStr? {
            entries := entries["/V" := PName("/" + fieldValue.s)];
            if fieldValue.s == "Yes" || fieldValue.s == "/Yes" {
              entries := entries["/AS" := PName("/Yes")];
            } else if fieldValue.s == "On" || fieldValue.s == "/On" {
              entries := entries["/AS" := PName("/On")];
            } else if fieldValue.s == "1" || fieldValue.s == "/1" {
              entries := entries["/AS" := PName("/1")];
            } else {
              entries := entries["/AS" := PName("/" + fieldValue.s)];
            }
          }
        }
      }
    }

    /** The body of the `_flatten_all_form_fields_completely` loop for this
        annotation. */
    method FlattenAll()
      modifies this
      ensures entries == FlattenAllEntry(old(entries))
    {
      if "/Subtype" in entries && NameIs(entries["/Subtype"], "/Widget") {
        var fieldType := GetOr(entries, "/FT", PStr(""));
        var fieldValue := GetOr(entries, "/V", PStr(""));
        if PdfTruthy(fieldValue) {
          entries := entries - InteractiveKeys;
          entries := entries["/Ff" := PInt(1)];
          entries := entries["/F" := PInt(4)];
          if NameIs(fieldType, "/Tx") {
            if "/AP" !in entries {
              entries := entries["/AP" := PDict([])];
            }
          } else if NameIs(fieldType, "/Btn") {
            entries := entries["/AS" := PName("/Yes")];
            if "/AP" !in entries {
              entries := entries["/AP" := PDict([])];
            }
          }
        }
      }
    }

    /** The body of the `_flatten_checkboxes_only` loop for this
        annotation. */
    method FlattenCheckbox()
      modifies this
      ensures entries == FlattenCheckboxEntry(old(entries))
    {
      if "/Subtype" in entries && NameIs(entries["/Subtype"], "/Widget") && "/FT" in entries
         && NameIs(entries["/FT"], "/Btn") && "/V" in entries && PdfTruthy(entries["/V"]) {
        var value := entries["/V"];
        entries := entries - CheckboxFormKeys;
        if "/AS" !in entries {
          entries := entries["/AS" := value];
        }
      }
    }

    /** The body of the `_create_checkbox_appearances` loop for this
        annotation. */
    method CreateAppearance(data: map<string, Json>)
      modifies this
      ensures entries == AppearanceEntry(old(entries), data)
    {
      if AppearanceTarget(entries, data) {
        var ap := if "/AP" in entries then entries["/AP"] else PDict([]);
        if ap.PDict? {
          var aes := EnsureNormal(ap.entries);
          var n := Lookup(aes, "/N").value;
          if n.PDict? {
            var nes := EnsureYes(n.entries);
            SetAppearance(aes, nes);
          } else if HoldsYes(n) {
            entries := entries["/AS" := PStr("/Yes")];
          }
        }
      }
    }

    /** Installs the completed `/AP` dictionary and selects `/Yes`. */
    method SetAppearance(aes: seq<(string, PdfObj)>, nes: seq<(string, PdfObj)>)
      modifies this
      ensures entries == old(entries)["/AP" := PDict(Store(aes, "/N", PDict(nes)))]["/AS" := PStr("/Yes")]
    {
      entries := entries["/AP" := PDict(Store(aes, "/N", PDict(nes)))];
      entries := entries["/AS" := PStr("/Yes")];
    }
  }

  /** Adds an empty `/N` dictionary to an appearance dictionary lacking one. */
  method EnsureNormal(aes: seq<(string, PdfObj)>) returns (r: seq<(string, PdfObj)>)
    ensures r == WithNormal(aes)
  {
    r := aes;
    if "/N" !in Keys(aes) {
      r := Store(aes, "/N", PDict([]));
    }
  }

  /** Adds the checked appearance to a normal-appearance dictionary lacking
      a `/Yes` entry. */
  method EnsureYes(nes: seq<(string, PdfObj)>) returns (r: seq<(string, PdfObj)>)
    ensures r == WithYes(nes)
  {
    r := nes;
    if "/Yes" !in Keys(nes) {
      r := Store(nes, "/Yes", CheckedAppearance);
    }
  }

  /** The annotations of every page, in page order (an annotation may be
      listed more than once). The loops below are the per-page loops of the
      repair steps run over all pages. */
  method SetCheckboxAppearanceState(annots: seq<Annotation>, data: map<string, Json>)
    modifies set a | a in annots
    ensures forall a :: a in annots ==> a.entries == SetStateEntry(old(a.entries), data)
  {
    var i := 0;
    while i < |annots|
      invariant 0 <= i <= |annots|
      invariant forall a :: a in annots ==>
        a.entries == (if a in annots[..i] then SetStateEntry(old(a.entries), data) else old(a.entries))
    {
      var annot := annots[i];
      if annot in annots[..i] {
        SetStateIdempotent(old(annot.entries), data);
      }
      annot.SetState(data);
      assert annots[..i + 1] == annots[..i] + [annot];
      i := i + 1;
    }
    assert annots[..i] == annots;
  }

  /** `_flatten_all_form_fields_completely` over every page. */
  method FlattenAllFormFields(annots: seq<Annotation>)
    modifies set a | a in annots
    ensures forall a :: a in annots ==> a.entries == FlattenAllEntry(old(a.entries))
  {
    var i := 0;
    while i < |annots|
      invariant 0 <= i <= |annots|
      invariant forall a :: a in annots ==>
        a.entries == (if a in annots[..i] then FlattenAllEntry(old(a.entries)) else old(a.entries))
    {
      var annot := annots[i];
      if annot in annots[..i] {
        FlattenAllIdempotent(old(annot.entries));
      }
      annot.FlattenAll();
      assert annots[..i + 1] == annots[..i] + [annot];
      i := i + 1;
    }
    assert annots[..i] == annots;
  }

  /** `_flatten_checkboxes_only` over every page. */
  method FlattenCheckboxesOnly(annots: seq<Annotation>)
    modifies set a | a in annots
    ensures forall a :: a in annots ==> a.entries == FlattenCheckboxEntry(old(a.entries))
  {
    var i := 0;
    while i < |annots|
      invariant 0 <= i <= |annots|
      invariant forall a :: a in annots ==>
        a.entries == (if a in annots[..i] then FlattenCheckboxEntry(old(a.entries)) else old(a.entries))
    {
      var annot := annots[i];
      if annot in annots[..i] {
        FlattenCheckboxIdempotent(old(annot.entries));
      }
      annot.FlattenCheckbox();
      assert annots[..i + 1] == annots[..i] + [annot];
      i := i + 1;
    }
    assert annots[..i] == annots;
  }

  /** `_create_checkbox_appearances` over every page. */
  method CreateCheckboxAppearances(annots: seq<Annotation>, data: map<string, Json>)
    modifies set a | a in annots
    ensures forall a :: a in annots ==> a.entries == AppearanceEntry(old(a.entries), data)
  {
    var i := 0;
    while i < |annots|
      invariant 0 <= i <= |annots|
      invariant forall a :: a in annots ==>
        a.entries == (if a in annots[..i] then AppearanceEntry(old(a.entries), data) else old(a.entries))
    {
      var annot := annots[i];
      if annot in annots[..i] {
        AppearanceIdempotent(old(annot.entries), data);
      }
      annot.CreateAppearance(data);
      assert annots[..i + 1] == annots[..i] + [annot];
      i := i + 1;
    }
    assert annots[..i] == annots;
  }
}
