/**
 * The help page's FAQ accordion: at most one answer is open at a time.
 */
module Help {
  import opened Wrappers

  /** `toggleFaq`: the open answer closes; any other one opens in its place. */
  function FaqToggled(expanded: Option<nat>, index: nat): (r: Option<nat>)
    ensures r.None? <==> expanded == Some(index)
    ensures r.Some? ==> r.value == index
  {
    if expanded == Some(index) then None else Some(index)
  }

  /** Opening and closing the same answer from a collapsed accordion collapses it again; opening a
      second answer closes the first. */
  lemma FaqToggleTwice(index: nat, other: nat)
    ensures FaqToggled(FaqToggled(None, index), index) == None
    ensures other != index ==> FaqToggled(FaqToggled(None, index), other) == Some(other)
  {
  }

  class FaqAccordion {
    var expanded: Option<nat>

    constructor()
      ensures expanded.None?
    {
      expanded := None;
    }

    /** Whether answer `index` is shown. */
    predicate IsOpen(index: nat)
      reads this
    {
      expanded == Some(index)
    }

    method ToggleFaq(index: nat)
      modifies this
      ensures expanded == FaqToggled(old(expanded), index)
      ensures IsOpen(index) <==> !old(IsOpen(index))
      ensures forall j :: j != index ==> !IsOpen(j)
    {
      expanded := FaqToggled(expanded, index);
    }
  }
}
