/** The parsing summary printed by `main`: how many line items, comments
    and deficient line items the extracted sections hold. */
module Summary {
  import opened JsonValues
  import opened Extractor

  /** The number of line items over all sections. */
  function LineItemCount(sections: seq<Section>): nat {
    if sections == [] then 0
    else LineItemCount(sections[..|sections| - 1]) + |sections[|sections| - 1].lineItems|
  }

  /** The number of comments over a run of line items. */
  function ItemCommentCount(items: seq<LineItem>): nat {
    if items == [] then 0
    else ItemCommentCount(items[..|items| - 1]) + |items[|items| - 1].comments|
  }

  /** The number of line items whose `is_deficient` is truthy. */
  function ItemDeficientCount(items: seq<LineItem>): nat {
    if items == [] then 0
    else ItemDeficientCount(items[..|items| - 1]) + (if Truthy(items[|items| - 1].isDeficient) then 1 else 0)
  }

  function CommentCount(sections: seq<Section>): nat {
    if sections == [] then 0
    else CommentCount(sections[..|sections| - 1]) + ItemCommentCount(sections[|sections| - 1].lineItems)
  }

  function DeficiencyCount(sections: seq<Section>): nat {
    if sections == [] then 0
    else DeficiencyCount(sections[..|sections| - 1]) + ItemDeficientCount(sections[|sections| - 1].lineItems)
  }

  /** The three counters of `main`'s nested loop. */
  method CountSummary(sections: seq<Section>) returns (totalLineItems: nat, totalComments: nat, deficiencies: nat)
    ensures totalLineItems == LineItemCount(sections)
    ensures totalComments == CommentCount(sections)
    ensures deficiencies == DeficiencyCount(sections)
  {
    totalLineItems, totalComments, deficiencies := 0, 0, 0;
    var i := 0;
    while i < |sections|
      invariant i <= |sections|
      invariant totalLineItems == LineItemCount(sections[..i])
      invariant totalComments == CommentCount(sections[..i])
      invariant deficiencies == DeficiencyCount(sections[..i])
    {
      var lineItems := sections[i].lineItems;
      totalLineItems := totalLineItems + |lineItems|;
      var sectionComments, sectionDeficient := 0, 0;
      var j := 0;
      while j < |lineItems|
        invariant j <= |lineItems|
        invariant sectionComments == ItemCommentCount(lineItems[..j])
        invariant sectionDeficient == ItemDeficientCount(lineItems[..j])
      {
        sectionComments := sectionComments + |lineItems[j].comments|;
        if Truthy(lineItems[j].isDeficient) {
          sectionDeficient := sectionDeficient + 1;
        }
        assert lineItems[..j + 1][..j] == lineItems[..j];
        j := j + 1;
      }
      assert lineItems[..j] == lineItems;
      totalComments := totalComments + sectionComments;
      deficiencies := deficiencies + sectionDeficient;
      assert sections[..i + 1][..i] == sections[..i];
      i := i + 1;
    }
    assert sections[..i] == sections;
  }

  lemma {:induction false} ItemDeficientBounded(items: seq<LineItem>)
    ensures ItemDeficientCount(items) <= |items|
  {
    if items != [] {
      ItemDeficientBounded(items[..|items| - 1]);
    }
  }

  /** There are never more deficiencies than line items. */
  lemma {:induction false} DeficienciesBounded(sections: seq<Section>)
    ensures DeficiencyCount(sections) <= LineItemCount(sections)
  {
    if sections != [] {
      DeficienciesBounded(sections[..|sections| - 1]);
      ItemDeficientBounded(sections[|sections| - 1].lineItems);
    }
  }

  /** The counts add up over a split of the sections. */
  lemma {:induction false} CountsAppend(a: seq<Section>, b: seq<Section>)
    ensures LineItemCount(a + b) == LineItemCount(a) + LineItemCount(b)
    ensures CommentCount(a + b) == CommentCount(a) + CommentCount(b)
    ensures DeficiencyCount(a + b) == DeficiencyCount(a) + DeficiencyCount(b)
  {
    if b == [] {
      assert a + b == a;
    } else {
      var init := b[..|b| - 1];
      assert (a + b)[..|a + b| - 1] == a + init;
      CountsAppend(a, init);
    }
  }
}
