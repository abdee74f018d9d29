/** The features grid's hover state: the hovered feature's id and whether
    any card is hovered. Each card's mouse-enter calls HandleMouseEnter
    with its id; mouse-leave calls HandleMouseLeave. */
module Features {
  import opened Common

  /** The ids of the five feature cards, in display order. */
  const FeatureIds := ["ai", "realtime", "models", "solutions", "privacy"]

  class HoverState {
    var activeFeature: Option<string>
    var isHoveringAny: bool

    /** The two cells always move together. */
    predicate Valid()
      reads this
    {
      isHoveringAny <==> activeFeature.Some?
    }

    constructor ()
      ensures Valid() && activeFeature == None && !isHoveringAny
    {
      activeFeature := None;
      isHoveringAny := false;
    }

    method HandleMouseEnter(id: string)
      modifies this
      ensures Valid()
      ensures activeFeature == Some(id) && isHoveringAny
    {
      activeFeature := Some(id);
      isHoveringAny := true;
    }

    method HandleMouseLeave()
      modifies this
      ensures Valid()
      ensures activeFeature == None && !isHoveringAny
    {
      activeFeature := None;
      isHoveringAny := false;
    }
  }

  /** Card `k` is drawn with its glow. */
  predicate CardActive(k: int, activeFeature: Option<string>)
    requires 0 <= k < |FeatureIds|
  {
    activeFeature == Some(FeatureIds[k])
  }

  /** The ids are distinct, so at most one card glows: the card whose id
      is the hovered one, and none when nothing is hovered. */
  lemma OneActiveCard(activeFeature: Option<string>)
    ensures forall i, j :: 0 <= i < j < |FeatureIds| ==> FeatureIds[i] != FeatureIds[j]
    ensures forall k, l ::
      (0 <= k < |FeatureIds| && 0 <= l < |FeatureIds| && CardActive(k, activeFeature) && CardActive(l, activeFeature))
      ==> k == l
    ensures activeFeature.None? ==> forall k :: 0 <= k < |FeatureIds| ==> !CardActive(k, activeFeature)
    ensures forall k :: 0 <= k < |FeatureIds| && activeFeature == Some(FeatureIds[k]) ==> CardActive(k, activeFeature)
  {
    assert FeatureIds[0][0] == 'a' && FeatureIds[1][0] == 'r' && FeatureIds[2][0] == 'm';
    assert FeatureIds[3][0] == 's' && FeatureIds[4][0] == 'p';
  }
}
