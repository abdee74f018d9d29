/** The FAQ accordion: one `openIndex` cell, null when every answer is
    collapsed. Clicking question `index` calls ToggleFAQ(index). */
module Faq {
  import opened Common

  const Questions := [
    "How does Spectro keep me undetected during interviews?",
    "What programming languages does Spectro support?",
    "Do I need my own API keys to use Spectro?",
    "Will Spectro work with online coding platforms?",
    "How accurate are the solutions provided by Spectro?",
    "Can Spectro help with system design interviews?"
  ]

  const ItemCount := |Questions|

  /** Item `i`'s answer is rendered (and its chevron turned). */
  predicate AnswerShown(openIndex: Option<int>, i: int)
  {
    openIndex == Some(i)
  }

  class Accordion {
    var openIndex: Option<int>

    /** The open item, if any, is one of the rendered items. */
    predicate Valid()
      reads this
    {
      openIndex.Some? ==> 0 <= openIndex.value < ItemCount
    }

    constructor ()
      ensures Valid() && openIndex == None
    {
      openIndex := None;
    }

    /** `setOpenIndex(openIndex === index ? null : index)`. The rendered
        buttons pass their own item index, which keeps the invariant. */
    method ToggleFAQ(index: int)
      modifies this
      ensures openIndex == Toggle(old(openIndex), index)
      ensures old(Valid()) && 0 <= index < ItemCount ==> Valid()
    {
      openIndex := if openIndex == Some(index) then None else Some(index);
    }
  }

  /** At most one answer is shown: none when nothing is open, otherwise
      exactly the open item's. */
  lemma ShownAnswers(openIndex: Option<int>)
    requires openIndex.Some? ==> 0 <= openIndex.value < ItemCount
    ensures (set i | 0 <= i < ItemCount && AnswerShown(openIndex, i))
      == if openIndex.Some? then {openIndex.value} else {}
  {
  }

  /** Clicking the open question closes it; clicking another one opens
      that one and closes the previous. */
  lemma ToggleEffect(openIndex: Option<int>, index: int, i: int)
    ensures AnswerShown(openIndex, index) ==> !AnswerShown(Toggle(openIndex, index), i)
    ensures !AnswerShown(openIndex, index) ==> (AnswerShown(Toggle(openIndex, index), i) <==> i == index)
  {
  }
}
