/** The template's field catalog, as the fillers see it: the field names in
    the order `get_fields()` lists them, and the name patterns that pick out
    the checkbox grid and the free-text fields. */
module Catalog {
  import opened Text

  /** The catalog's names that satisfy `p`, in catalog order. */
  function Filter(names: seq<string>, p: string -> bool): (r: seq<string>)
    ensures |r| <= |names|
  {
    if names == [] then []
    else Filter(names[..|names| - 1], p) + (if p(names[|names| - 1]) then [names[|names| - 1]] else [])
  }

  /** Filtering keeps exactly the names that satisfy the predicate. */
  lemma {:induction false} FilterMembers(names: seq<string>, p: string -> bool, n: string)
    ensures n in Filter(names, p) <==> n in names && p(n)
  {
    if names != [] {
      var init := names[..|names| - 1];
      FilterMembers(init, p, n);
      assert names == init + [names[|names| - 1]];
    }
  }

  /** Splitting by a predicate and its negation loses and duplicates
      nothing. */
  lemma {:induction false} FilterSplit(names: seq<string>, p: string -> bool, q: string -> bool)
    requires forall n :: n in names ==> (q(n) <==> !p(n))
    ensures multiset(Filter(names, p)) + multiset(Filter(names, q)) == multiset(names)
  {
    if names != [] {
      var init := names[..|names| - 1];
      assert names == init + [names[|names| - 1]];
      FilterSplit(init, p, q);
    }
  }

  predicate IsCheckboxName(n: string) { Contains(n, "CheckBox") }
  predicate IsTextOnlyName(n: string) { !IsCheckboxName(n) && Contains(n, "Text") }
  predicate IsOtherName(n: string) { !IsCheckboxName(n) && !Contains(n, "Text") }
  predicate NotCheckboxName(n: string) { !IsCheckboxName(n) }

  /** `_analyze_form_fields`: sorts the catalog's names into checkbox
      fields (the name contains `CheckBox`), text fields (otherwise, the
      name contains `Text`) and the rest, each list in catalog order. */
  method AnalyzeFormFields(catalog: seq<string>) returns (text: seq<string>, checkbox: seq<string>, other: seq<string>)
    ensures checkbox == Filter(catalog, IsCheckboxName)
    ensures text == Filter(catalog, IsTextOnlyName)
    ensures other == Filter(catalog, IsOtherName)
  {
    text, checkbox, other := [], [], [];
    var i := 0;
    while i < |catalog|
      invariant 0 <= i <= |catalog|
      invariant checkbox == Filter(catalog[..i], IsCheckboxName)
      invariant text == Filter(catalog[..i], IsTextOnlyName)
      invariant other == Filter(catalog[..i], IsOtherName)
    {
      var name := catalog[i];
      assert catalog[..i + 1][..i] == catalog[..i];
      if Contains(name, "CheckBox") {
        checkbox := checkbox + [name];
      } else if Contains(name, "Text") {
        text := text + [name];
      } else {
        other := other + [name];
      }
      i := i + 1;
    }
    assert catalog[..i] == catalog;
  }

  /** The three categories partition the catalog: every name lands in
      exactly one of them, and none is lost or repeated. */
  lemma CategoriesPartition(catalog: seq<string>, n: string)
    ensures multiset(Filter(catalog, IsCheckboxName)) + multiset(Filter(catalog, IsTextOnlyName))
            + multiset(Filter(catalog, IsOtherName)) == multiset(catalog)
    ensures n in catalog ==>
      (n in Filter(catalog, IsCheckboxName) || n in Filter(catalog, IsTextOnlyName) || n in Filter(catalog, IsOtherName))
    ensures !(n in Filter(catalog, IsCheckboxName) && n in Filter(catalog, IsTextOnlyName))
    ensures !(n in Filter(catalog, IsCheckboxName) && n in Filter(catalog, IsOtherName))
    ensures !(n in Filter(catalog, IsTextOnlyName) && n in Filter(catalog, IsOtherName))
  {
    FilterSplit(catalog, IsCheckboxName, NotCheckboxName);
    var rest := Filter(catalog, NotCheckboxName);
    forall m | m in rest ensures IsOtherName(m) <==> !IsTextOnlyName(m) {
      FilterMembers(catalog, NotCheckboxName, m);
    }
    FilterSplit(rest, IsTextOnlyName, IsOtherName);
    FilterOfFilter(catalog, NotCheckboxName, IsTextOnlyName);
    FilterOfFilter(catalog, NotCheckboxName, IsOtherName);
    FilterMembers(catalog, IsCheckboxName, n);
    FilterMembers(catalog, IsTextOnlyName, n);
    FilterMembers(catalog, IsOtherName, n);
  }

  lemma FilterSnoc(names: seq<string>, n: string, p: string -> bool)
    ensures Filter(names + [n], p) == Filter(names, p) + (if p(n) then [n] else [])
  {
    assert (names + [n])[..|names + [n]| - 1] == names;
  }

  /** Nothing survives a filter that no name satisfies. */
  lemma {:induction false} FilterNone(names: seq<string>, p: string -> bool)
    requires forall i :: 0 <= i < |names| ==> !p(names[i])
    ensures Filter(names, p) == []
  {
    if names != [] {
      FilterNone(names[..|names| - 1], p);
    }
  }

  /** Filtering by `p` and then by a stronger `q` is filtering by `q`. */
  lemma {:induction false} FilterOfFilter(names: seq<string>, p: string -> bool, q: string -> bool)
    requires forall n :: q(n) ==> p(n)
    ensures Filter(Filter(names, p), q) == Filter(names, q)
  {
    if names != [] {
      var init := names[..|names| - 1];
      var last := names[|names| - 1];
      FilterOfFilter(init, p, q);
      assert Filter(names, p) == Filter(init, p) + (if p(last) then [last] else []);
      assert Filter(names, q) == Filter(init, q) + (if q(last) then [last] else []);
      if p(last) {
        FilterSnoc(Filter(init, p), last, q);
      } else {
        assert !q(last);
        assert Filter(names, p) == Filter(init, p);
        assert Filter(names, q) == Filter(init, q);
      }
    }
  }

  /** The free-text fields that receive comments: names that contain
      `Text` but do not start with `TextField`. */
  predicate IsCommentField(n: string) { Contains(n, "Text") && !StartsWith(n, "TextField") }

  function TextFields(catalog: seq<string>): seq<string> {
    Filter(catalog, IsCommentField)
  }

  /** The name of slot `slot` of the inspection-matrix checkbox grid. */
  function CheckBoxName(slot: nat): string {
    "CheckBox1[" + Decimal(slot) + "]"
  }

  /** Distinct slots have distinct field names. */
  lemma CheckBoxNameInjective(a: nat, b: nat)
    requires CheckBoxName(a) == CheckBoxName(b)
    ensures a == b
  {
    var da, db := Decimal(a), Decimal(b);
    assert |da| == |db|;
    assert da == CheckBoxName(a)[10..10 + |da|];
    assert db == CheckBoxName(b)[10..10 + |db|];
    DecimalInjective(a, b);
  }
}
