/** The inspection details: every non-blank comment of every line item,
    rendered as `<section name>[ (<location>)]: <text>`, defects first, each
    cut to 500 characters, written one per free-text field of the template.

    `_fill_inspection_details` is identical in `report.py` and
    `working-1.py`. Any exception inside it (a comment text that is not a
    string) is caught by the stage itself, which then writes nothing. */
module Details {
  import opened JsonValues
  import opened Text
  import opened Extractor
  import opened Catalog

  /** Comments longer than this are cut. */
  const MaxCommentLength: nat := 500
  /** What marks a cut comment. */
  const Ellipsis: string := "..."
  /** The comment type that goes first. */
  const DefectType: Json := JStr("defect")

  /** `str(v)` (and f-string formatting) of a JSON value. Python's `repr`
      of lists and dicts is not part of this model: `repr` stands for it. */
  function PyStr(v: Json, repr: Json -> string): string {
    match v
    case JNull => "None"
    case JBool(b) => if b then "True" else "False"
    case JNum(n) => IntString(n)
    case JStr(s) => s
    case _ => repr(v)
  }

  /** The formatted comment: the section name, the location in parentheses
      when it is truthy, then `': '` and the stripped text. */
  function Render(sectionName: Json, location: Json, text: string, repr: Json -> string): string {
    PyStr(sectionName, repr) + (if Truthy(location) then " (" + PyStr(location, repr) + ")" else "") + ": " + text
  }

  /** A rendered comment and whether it is a defect. */
  datatype Note = Note(text: string, defect: bool)

  /** One comment of a section: `Raised` when its text has no `.strip()`,
      nothing when the stripped text is empty, else its note. */
  function NoteOf(x: (Json, Comment), repr: Json -> string): Outcome<Option<Note>> {
    var c := x.1;
    if !c.text.JStr? then Raised
    else
      var t := Strip(c.text.s);
      if t == "" then Ok(None)
      else Ok(Some(Note(Render(x.0, c.location, t, repr), c.kind == DefectType)))
  }

  // ---------------------------------------------------------------------
  // The walk over sections, line items and comments

  /** A line item's comments, each tagged with its section's name. */
  function Pair(name: Json, cs: seq<Comment>): (r: seq<(Json, Comment)>)
    ensures |r| == |cs| && forall i :: 0 <= i < |cs| ==> r[i] == (name, cs[i])
  {
    seq(|cs|, i requires 0 <= i < |cs| => (name, cs[i]))
  }

  lemma PairAppend(name: Json, a: seq<Comment>, b: seq<Comment>)
    ensures Pair(name, a + b) == Pair(name, a) + Pair(name, b)
  {
    var l, r := Pair(name, a + b), Pair(name, a) + Pair(name, b);
    assert forall i :: 0 <= i < |l| ==> l[i] == r[i] by {
      forall i | 0 <= i < |l| ensures l[i] == r[i] {
        if i < |a| { assert (a + b)[i] == a[i]; } else { assert (a + b)[i] == b[i - |a|]; }
      }
    }
  }

  /** The tagged comments of a section's line items, in order. */
  function ItemPairs(name: Json, items: seq<LineItem>): seq<(Json, Comment)> {
    if items == [] then []
    else ItemPairs(name, items[..|items| - 1]) + Pair(name, items[|items| - 1].comments)
  }

  /** Every tagged comment of the record, in the order the loops visit
      them. */
  function Walk(sections: seq<Section>): seq<(Json, Comment)> {
    if sections == [] then []
    else Walk(sections[..|sections| - 1]) + ItemPairs(sections[|sections| - 1].name, sections[|sections| - 1].lineItems)
  }

  lemma {:induction false} ItemPairsAppend(name: Json, a: seq<LineItem>, b: seq<LineItem>)
    ensures ItemPairs(name, a + b) == ItemPairs(name, a) + ItemPairs(name, b)
  {
    if b != [] {
      var init := b[..|b| - 1];
      assert (a + b)[..|a + b| - 1] == a + init;
      assert (a + b)[|a + b| - 1] == b[|b| - 1];
      ItemPairsAppend(name, a, init);
    } else {
      assert a + b == a;
    }
  }

  lemma {:induction false} WalkAppend(a: seq<Section>, b: seq<Section>)
    ensures Walk(a + b) == Walk(a) + Walk(b)
  {
    if b != [] {
      var init := b[..|b| - 1];
      assert (a + b)[..|a + b| - 1] == a + init;
      assert (a + b)[|a + b| - 1] == b[|b| - 1];
      WalkAppend(a, init);
    } else {
      assert a + b == a;
    }
  }

  // ---------------------------------------------------------------------
  // Collecting the comments

  /** `deficiency_comments` and `all_comments` so far. */
  datatype Collected = Collected(defects: seq<string>, general: seq<string>)

  const NothingCollected: Collected := Collected([], [])

  /** One pass of the innermost loop. */
  function Step(acc: Collected, x: (Json, Comment), repr: Json -> string): Outcome<Collected> {
    var n :- NoteOf(x, repr);
    match n
    case None => Ok(acc)
    case Some(note) =>
      if note.defect then Ok(Collected(acc.defects + [note.text], acc.general))
      else Ok(Collected(acc.defects, acc.general + [note.text]))
  }

  /** The step, as the value the walk threads through `Fold`. */
  function Stepper(repr: Json -> string): (Collected, (Json, Comment)) -> Outcome<Collected> {
    (a, x) => Step(a, x, repr)
  }

  /** The lists after visiting `xs`, starting from nothing. */
  function Collect(xs: seq<(Json, Comment)>, repr: Json -> string): Outcome<Collected> {
    Fold(Ok(NothingCollected), xs, Stepper(repr))
  }

  /** The collection loops of `_fill_inspection_details`. */
  method CollectComments(sections: seq<Section>, repr: Json -> string) returns (r: Outcome<Collected>)
    ensures r == Collect(Walk(sections), repr)
  {
    var acc := NothingCollected;
    var i := 0;
    while i < |sections|
      invariant 0 <= i <= |sections|
      invariant Collect(Walk(sections[..i]), repr) == Ok(acc)
    {
      var sectionName := sections[i].name;
      var next := CollectSection(acc, sectionName, sections[i].lineItems, repr);
      CollectWalkStep(sections, i, repr);
      if next.Raised? {
        CollectWalkRaised(sections, i + 1, repr);
        return Raised;
      }
      acc := next.value;
      i := i + 1;
    }
    assert sections[..i] == sections;
    r := Ok(acc);
  }

  /** The walk over the first `i + 1` sections continues the walk over
      the first `i` with section `i`'s comments. */
  lemma CollectWalkStep(sections: seq<Section>, i: nat, repr: Json -> string)
    requires i < |sections|
    ensures Collect(Walk(sections[..i + 1]), repr) ==
      Fold(Collect(Walk(sections[..i]), repr), ItemPairs(sections[i].name, sections[i].lineItems), Stepper(repr))
  {
    assert sections[..i + 1][..i] == sections[..i];
    FoldAppend(Ok(NothingCollected), Walk(sections[..i]), ItemPairs(sections[i].name, sections[i].lineItems), Stepper(repr));
  }

  /** Once the walk over the first `i` sections raised, the whole walk
      raises. */
  lemma CollectWalkRaised(sections: seq<Section>, i: nat, repr: Json -> string)
    requires i <= |sections|
    requires Collect(Walk(sections[..i]), repr).Raised?
    ensures Collect(Walk(sections), repr).Raised?
  {
    assert sections == sections[..i] + sections[i..];
    WalkAppend(sections[..i], sections[i..]);
    FoldAppend(Ok(NothingCollected), Walk(sections[..i]), Walk(sections[i..]), Stepper(repr));
    FoldRaised(Walk(sections[i..]), Stepper(repr));
  }

  /** The line-item loop for one section. */
  method CollectSection(acc0: Collected, sectionName: Json, items: seq<LineItem>, repr: Json -> string)
    returns (r: Outcome<Collected>)
    ensures r == Fold(Ok(acc0), ItemPairs(sectionName, items), Stepper(repr))
  {
    var acc := acc0;
    var j := 0;
    while j < |items|
      invariant 0 <= j <= |items|
      invariant Fold(Ok(acc0), ItemPairs(sectionName, items[..j]), Stepper(repr)) == Ok(acc)
    {
      var next := CollectItem(acc, sectionName, items[j].comments, repr);
      ItemStep(acc0, sectionName, items, j, repr);
      if next.Raised? {
        ItemsRaised(acc0, sectionName, items, j + 1, repr);
        return Raised;
      }
      acc := next.value;
      j := j + 1;
    }
    assert items[..j] == items;
    r := Ok(acc);
  }

  lemma ItemStep(acc0: Collected, sectionName: Json, items: seq<LineItem>, j: nat, repr: Json -> string)
    requires j < |items|
    ensures Fold(Ok(acc0), ItemPairs(sectionName, items[..j + 1]), Stepper(repr)) ==
      Fold(Fold(Ok(acc0), ItemPairs(sectionName, items[..j]), Stepper(repr)), Pair(sectionName, items[j].comments), Stepper(repr))
  {
    assert items[..j + 1][..j] == items[..j];
    FoldAppend(Ok(acc0), ItemPairs(sectionName, items[..j]), Pair(sectionName, items[j].comments), Stepper(repr));
  }

  lemma ItemsRaised(acc0: Collected, sectionName: Json, items: seq<LineItem>, j: nat, repr: Json -> string)
    requires j <= |items|
    requires Fold(Ok(acc0), ItemPairs(sectionName, items[..j]), Stepper(repr)).Raised?
    ensures Fold(Ok(acc0), ItemPairs(sectionName, items), Stepper(repr)).Raised?
  {
    assert items == items[..j] + items[j..];
    ItemPairsAppend(sectionName, items[..j], items[j..]);
    FoldAppend(Ok(acc0), ItemPairs(sectionName, items[..j]), ItemPairs(sectionName, items[j..]), Stepper(repr));
    FoldRaised(ItemPairs(sectionName, items[j..]), Stepper(repr));
  }

  /** The comment loop for one line item. */
  method CollectItem(acc0: Collected, sectionName: Json, comments: seq<Comment>, repr: Json -> string)
    returns (r: Outcome<Collected>)
    ensures r == Fold(Ok(acc0), Pair(sectionName, comments), Stepper(repr))
  {
    var acc := acc0;
    var k := 0;
    while k < |comments|
      invariant 0 <= k <= |comments|
      invariant Fold(Ok(acc0), Pair(sectionName, comments[..k]), Stepper(repr)) == Ok(acc)
    {
      var next := AddComment(acc, sectionName, comments[k], repr);
      PairStep(acc0, sectionName, comments, k, repr);
      if next.Raised? {
        PairRaised(acc0, sectionName, comments, k + 1, repr);
        return Raised;
      }
      acc := next.value;
      k := k + 1;
    }
    assert comments[..k] == comments;
    r := Ok(acc);
  }

  lemma PairStep(acc0: Collected, sectionName: Json, comments: seq<Comment>, k: nat, repr: Json -> string)
    requires k < |comments|
    ensures Fold(Ok(acc0), Pair(sectionName, comments[..k + 1]), Stepper(repr)) ==
      match Fold(Ok(acc0), Pair(sectionName, comments[..k]), Stepper(repr))
      case Raised => Raised
      case Ok(a) => Step(a, (sectionName, comments[k]), repr)
  {
    assert Pair(sectionName, comments[..k + 1]) == Pair(sectionName, comments[..k]) + [(sectionName, comments[k])];
    FoldSnoc(Ok(acc0), Pair(sectionName, comments[..k]), (sectionName, comments[k]), Stepper(repr));
  }

  lemma PairRaised(acc0: Collected, sectionName: Json, comments: seq<Comment>, k: nat, repr: Json -> string)
    requires k <= |comments|
    requires Fold(Ok(acc0), Pair(sectionName, comments[..k]), Stepper(repr)).Raised?
    ensures Fold(Ok(acc0), Pair(sectionName, comments), Stepper(repr)).Raised?
  {
    assert comments == comments[..k] + comments[k..];
    PairAppend(sectionName, comments[..k], comments[k..]);
    FoldAppend(Ok(acc0), Pair(sectionName, comments[..k]), Pair(sectionName, comments[k..]), Stepper(repr));
    FoldRaised(Pair(sectionName, comments[k..]), Stepper(repr));
  }

  /** The body of the comment loop: strip, format, and append to the
      defect or the general list. */
  method AddComment(acc: Collected, sectionName: Json, comment: Comment, repr: Json -> string)
    returns (r: Outcome<Collected>)
    ensures r == Step(acc, (sectionName, comment), repr)
  {
    if !comment.text.JStr? {
      return Raised;
    }
    var commentText := Strip(comment.text.s);
    r := Ok(acc);
    if commentText != "" {
      var formatted := PyStr(sectionName, repr);
      if Truthy(comment.location) {
        formatted := formatted + (" (" + PyStr(comment.location, repr) + ")");
      } else {
        assert formatted + "" == formatted;
      }
      formatted := formatted + ": " + commentText;
      if comment.kind == DefectType {
        r := Ok(Collected(acc.defects + [formatted], acc.general));
      } else {
        r := Ok(Collected(acc.defects, acc.general + [formatted]));
      }
    }
  }

  // ---------------------------------------------------------------------
  // What the collection means

  /** The notes of every non-blank string comment of the walk, in walk
      order (comments whose text is not a string are skipped here; whether
      there is one is stated separately). */
  function Rendered(xs: seq<(Json, Comment)>, repr: Json -> string): seq<Note> {
    if xs == [] then []
    else
      Rendered(xs[..|xs| - 1], repr) +
      (match NoteOf(xs[|xs| - 1], repr) case Ok(Some(n)) => [n] case _ => [])
  }

  /** The texts of the notes whose defect flag is `flag`, in order. */
  function Select(ns: seq<Note>, flag: bool): (r: seq<string>)
    ensures |r| <= |ns|
  {
    if ns == [] then []
    else Select(ns[..|ns| - 1], flag) + (if ns[|ns| - 1].defect == flag then [ns[|ns| - 1].text] else [])
  }

  function Texts(ns: seq<Note>): (r: seq<string>)
    ensures |r| == |ns| && forall i :: 0 <= i < |ns| ==> r[i] == ns[i].text
  {
    if ns == [] then [] else Texts(ns[..|ns| - 1]) + [ns[|ns| - 1].text]
  }

  /** One comment raises exactly when its text is not a string. */
  lemma StepOk(repr: Json -> string)
    ensures forall a, x :: Stepper(repr)(a, x).Ok? <==> x.1.text.JStr?
  {
    forall a, x ensures Stepper(repr)(a, x).Ok? <==> x.1.text.JStr? {
      assert Stepper(repr)(a, x) == Step(a, x, repr);
    }
  }

  /** The walk succeeds exactly when every comment text, blank or not, is a
      string. */
  lemma CollectOk(xs: seq<(Json, Comment)>, repr: Json -> string)
    ensures Collect(xs, repr).Ok? <==> forall i :: 0 <= i < |xs| ==> xs[i].1.text.JStr?
  {
    StepOk(repr);
    FoldOk(NothingCollected, xs, Stepper(repr), (x: (Json, Comment)) => x.1.text.JStr?);
  }

  /** When the walk succeeds, the defect list holds the defect notes and
      the general list the others, each in walk order. */
  lemma {:induction false} CollectSplits(xs: seq<(Json, Comment)>, repr: Json -> string)
    requires Collect(xs, repr).Ok?
    ensures Collect(xs, repr).value == Collected(Select(Rendered(xs, repr), true), Select(Rendered(xs, repr), false))
  {
    if xs != [] {
      var init := xs[..|xs| - 1];
      var last := xs[|xs| - 1];
      assert xs == init + [last];
      FoldSnoc(Ok(NothingCollected), init, last, Stepper(repr));
      var prev := Collect(init, repr);
      assert prev.Ok?;
      CollectSplits(init, repr);
      assert Collect(xs, repr) == Step(prev.value, last, repr);
      var ns := Rendered(init, repr);
      match NoteOf(last, repr)
      case Ok(Some(n)) =>
        assert Rendered(xs, repr) == ns + [n];
        assert (ns + [n])[..|ns + [n]| - 1] == ns;
      case Ok(None) =>
        assert Rendered(xs, repr) == ns;
    }
  }

  lemma SelectSnoc(ns: seq<Note>, n: Note, flag: bool)
    ensures Select(ns + [n], flag) == Select(ns, flag) + (if n.defect == flag then [n.text] else [])
  {
    assert (ns + [n])[..|ns + [n]| - 1] == ns;
  }

  /** Putting the defects first and the rest after loses and duplicates no
      note. */
  lemma {:induction false} SelectPermutes(ns: seq<Note>)
    ensures multiset(Select(ns, true) + Select(ns, false)) == multiset(Texts(ns))
  {
    if ns != [] {
      var init := ns[..|ns| - 1];
      var n := ns[|ns| - 1];
      assert ns == init + [n];
      SelectPermutes(init);
      SelectSnoc(init, n, true);
      SelectSnoc(init, n, false);
      assert Texts(ns) == Texts(init) + [n.text];
    }
  }

  /** `comments_to_fill`: defects first, then the others. */
  function Ordered(c: Collected): seq<string> {
    c.defects + c.general
  }

  /** A comment with the given text and type and every other key absent. */
  function SampleComment(text: string, kind: string): Comment {
    Comment(EmptyString, JStr(text), JStr(kind), EmptyString, EmptyString,
            JBool(false), JBool(false), EmptyString, EmptyList, EmptyList)
  }

  /** Three non-blank comments, general, defect, general, are filled
      defect first and then the two general ones in their order. */
  lemma OrderExample(repr: Json -> string)
    ensures
      var xs := [(JStr("Roof"), SampleComment("G1", "info")), (JStr("Roof"), SampleComment("D1", "defect")),
                 (JStr("Attic"), SampleComment("G2", ""))];
      Collect(xs, repr).Ok? &&
      Ordered(Collect(xs, repr).value) == ["Roof: D1", "Roof: G1", "Attic: G2"]
  {
    var x1, x2, x3 := (JStr("Roof"), SampleComment("G1", "info")), (JStr("Roof"), SampleComment("D1", "defect")),
                      (JStr("Attic"), SampleComment("G2", ""));
    var c1 := Collected([], ["Roof: G1"]);
    var c2 := Collected(["Roof: D1"], ["Roof: G1"]);
    var c3 := Collected(["Roof: D1"], ["Roof: G1", "Attic: G2"]);
    assert "Roof" + ": " + "G1" == "Roof: G1";
    SampleStep(NothingCollected, "Roof", "G1", "info", repr);
    assert NothingCollected.general + ["Roof: G1"] == ["Roof: G1"];
    assert Step(NothingCollected, x1, repr) == Ok(c1);
    assert "Roof" + ": " + "D1" == "Roof: D1";
    SampleStep(c1, "Roof", "D1", "defect", repr);
    assert c1.defects + ["Roof: D1"] == ["Roof: D1"];
    assert Step(c1, x2, repr) == Ok(c2);
    assert "Attic" + ": " + "G2" == "Attic: G2";
    SampleStep(c2, "Attic", "G2", "", repr);
    assert c2.general + ["Attic: G2"] == ["Roof: G1", "Attic: G2"];
    assert Step(c2, x3, repr) == Ok(c3);
    CollectThree(x1, x2, x3, repr, c1, c2, c3);
  }

  /** Three steps that succeed one after the other collect what the last
      one yields. */
  lemma CollectThree(x1: (Json, Comment), x2: (Json, Comment), x3: (Json, Comment), repr: Json -> string,
                     c1: Collected, c2: Collected, c3: Collected)
    requires Step(NothingCollected, x1, repr) == Ok(c1)
    requires Step(c1, x2, repr) == Ok(c2)
    requires Step(c2, x3, repr) == Ok(c3)
    ensures Collect([x1, x2, x3], repr) == Ok(c3)
  {
    var st := Stepper(repr);
    FoldSnoc(Ok(NothingCollected), [], x1, st);
    assert [] + [x1] == [x1];
    FoldSnoc(Ok(NothingCollected), [x1], x2, st);
    assert [x1] + [x2] == [x1, x2];
    FoldSnoc(Ok(NothingCollected), [x1, x2], x3, st);
    assert [x1, x2] + [x3] == [x1, x2, x3];
  }

  /** A truthy location goes in parentheses between the section name and
      the text. */
  lemma RenderExample(repr: Json -> string)
    ensures Render(JStr("Roof"), JStr("North slope"), "missing shingles", repr) ==
      "Roof (North slope): missing shingles"
  {
    assert Truthy(JStr("North slope"));
    assert "Roof" + (" (" + "North slope" + ")") + ": " + "missing shingles" == "Roof (North slope): missing shingles";
  }

  /** One step over a sample comment with a two-letter text. */
  lemma SampleStep(acc: Collected, name: string, text: string, kind: string, repr: Json -> string)
    requires |text| == 2 && !IsSpace(text[0]) && !IsSpace(text[1])
    ensures Step(acc, (JStr(name), SampleComment(text, kind)), repr) ==
      if JStr(kind) == DefectType then Ok(Collected(acc.defects + [name + ": " + text], acc.general))
      else Ok(Collected(acc.defects, acc.general + [name + ": " + text]))
  {
    StripExample(text);
    assert name + "" == name;
    assert Render(JStr(name), EmptyString, text, repr) == name + ": " + text;
    assert NoteOf((JStr(name), SampleComment(text, kind)), repr) ==
      Ok(Some(Note(name + ": " + text, JStr(kind) == DefectType)));
  }

  /** Two-letter words without spaces strip to themselves. */
  lemma StripExample(s: string)
    requires |s| == 2 && !IsSpace(s[0]) && !IsSpace(s[1])
    ensures Strip(s) == s
  {
    assert TrimStart(s) == s;
    assert TrimEnd(s) == s;
  }

  // ---------------------------------------------------------------------
  // Filling the text fields

  /** `comment[:500] + "..." if len(comment) > 500 else comment`. */
  function Truncate(c: string): (r: string)
    ensures |r| <= MaxCommentLength + |Ellipsis|
    ensures |c| <= MaxCommentLength ==> r == c
    ensures |c| > MaxCommentLength ==>
      |r| == MaxCommentLength + |Ellipsis| && r[..MaxCommentLength] == c[..MaxCommentLength] && r[MaxCommentLength..] == Ellipsis
  {
    if |c| > MaxCommentLength then c[..MaxCommentLength] + Ellipsis else c
  }

  /** A 600-character comment becomes its first 500 characters and the
      ellipsis, 503 characters in all. */
  lemma TruncateExample(c: string)
    requires |c| == 600
    ensures |Truncate(c)| == 503
  {
  }

  /** `field_data` after the first `n` passes of the fill loop: text field
      `i` receives comment `i`, cut. */
  function DetailWrites(comments: seq<string>, fields: seq<string>, n: nat): map<string, Json>
    requires n <= |comments| && n <= |fields|
  {
    if n == 0 then map[]
    else DetailWrites(comments, fields, n - 1)[fields[n - 1] := JStr(Truncate(comments[n - 1]))]
  }

  /** Exactly the first `n` text fields are written. */
  lemma {:induction false} DetailWritesKeys(comments: seq<string>, fields: seq<string>, n: nat, f: string)
    requires n <= |comments| && n <= |fields|
    ensures f in DetailWrites(comments, fields, n) <==> f in fields[..n]
  {
    if n > 0 {
      DetailWritesKeys(comments, fields, n - 1, f);
      assert fields[..n] == fields[..n - 1] + [fields[n - 1]];
    }
  }

  /** With distinct field names, text field `i` holds comment `i`, cut to
      500 characters. */
  lemma {:induction false} DetailWritesValues(comments: seq<string>, fields: seq<string>, n: nat, i: nat)
    requires n <= |comments| && n <= |fields|
    requires forall a, b :: 0 <= a < b < n ==> fields[a] != fields[b]
    requires i < n
    ensures fields[i] in DetailWrites(comments, fields, n)
    ensures DetailWrites(comments, fields, n)[fields[i]] == JStr(Truncate(comments[i]))
  {
    var prev := DetailWrites(comments, fields, n - 1);
    assert DetailWrites(comments, fields, n) == prev[fields[n - 1] := JStr(Truncate(comments[n - 1]))];
    if i < n - 1 {
      DetailWritesValues(comments, fields, n - 1, i);
      assert fields[i] != fields[n - 1];
    }
  }

  /** What `_fill_inspection_details` writes. */
  function DetailFill(sections: seq<Section>, catalog: seq<string>, repr: Json -> string): map<string, Json> {
    match Collect(Walk(sections), repr)
    case Raised => map[]
    case Ok(c) =>
      var toFill := Ordered(c);
      var fields := TextFields(catalog);
      DetailWrites(toFill, fields, if |toFill| < |fields| then |toFill| else |fields|)
  }

  /** `_fill_inspection_details`. */
  method FillInspectionDetails(sections: seq<Section>, catalog: seq<string>, repr: Json -> string)
    returns (writes: map<string, Json>)
    ensures writes == DetailFill(sections, catalog, repr)
  {
    var textFields := TextFields(catalog);
    var collected := CollectComments(sections, repr);
    if collected.Raised? {
      return map[];
    }
    var toFill := Ordered(collected.value);
    var n := if |toFill| < |textFields| then |toFill| else |textFields|;
    writes := map[];
    var i := 0;
    while i < n
      invariant 0 <= i <= n
      invariant writes == DetailWrites(toFill, textFields, i)
    {
      var comment := toFill[i];
      var truncated := if |comment| > MaxCommentLength then comment[..MaxCommentLength] + Ellipsis else comment;
      assert truncated == Truncate(comment);
      writes := writes[textFields[i] := JStr(truncated)];
      i := i + 1;
    }
  }

  /** Every field the details stage writes is a comment field of the
      catalog; a comment text that is not a string makes it write nothing. */
  lemma DetailFillFields(sections: seq<Section>, catalog: seq<string>, repr: Json -> string, f: string)
    ensures f in DetailFill(sections, catalog, repr) ==> f in catalog && IsCommentField(f)
    ensures Collect(Walk(sections), repr).Raised? ==> DetailFill(sections, catalog, repr) == map[]
  {
    match Collect(Walk(sections), repr)
    case Raised =>
    case Ok(c) =>
      var toFill := Ordered(c);
      var fields := TextFields(catalog);
      var n := if |toFill| < |fields| then |toFill| else |fields|;
      DetailWritesKeys(toFill, fields, n, f);
      if f in fields[..n] {
        FilterMembers(catalog, IsCommentField, f);
      }
  }
}
