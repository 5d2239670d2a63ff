/** The FAQ accordion (src/components/sections/FAQ.tsx): a single optional
    open index, so at most one answer is ever shown. */
module Faq {
  import opened Optional

  /** The open index after a click on item `index`: the open item closes,
      any other item opens in place of whatever was open. */
  function Toggled(open: Option<nat>, index: nat): (next: Option<nat>)
    ensures next == Some(index) <==> open != Some(index)
    ensures next.Some? ==> next.value == index
  {
    if open == Some(index) then None else Some(index)
  }

  /** Two clicks on the same item restore the state before them when that
      item was open or nothing was; when another item was open, they leave
      everything closed. */
  lemma ToggleTwice(open: Option<nat>, index: nat)
    ensures open == Some(index) || open == None ==> Toggled(Toggled(open, index), index) == open
    ensures open.Some? && open != Some(index) ==> Toggled(Toggled(open, index), index) == None
  {
  }

  class Accordion {
    var openIndex: Option<nat>

    predicate IsOpen(index: nat)
      reads this
    {
      openIndex == Some(index)
    }

    /** The first question starts open. */
    constructor ()
      ensures openIndex == Some(0)
    {
      openIndex := Some(0);
    }

    /** `toggleFAQ`. */
    method Toggle(index: nat)
      modifies this
      ensures openIndex == Toggled(old(openIndex), index)
      ensures IsOpen(index) <==> !old(IsOpen(index))
      ensures forall other: nat :: other != index ==> !IsOpen(other)
    {
      openIndex := if openIndex == Some(index) then None else Some(index);
    }
  }
}
