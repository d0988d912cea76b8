/** The FAQ accordion: which items are expanded. */
module Faq {

  /** A copy of `open` with the membership of `index` flipped. */
  function Toggled(open: set<nat>, index: nat): (r: set<nat>)
    ensures index in r <==> index !in open
    ensures forall i :: i != index ==> (i in r <==> i in open)
  {
    if index in open then open - {index} else open + {index}
  }

  /** Toggling the same item twice restores the set. */
  lemma ToggleTwice(open: set<nat>, index: nat)
    ensures Toggled(Toggled(open, index), index) == open
  {
  }

  class FaqPage {
    var openItems: set<nat>

    /** Only the first item starts expanded. */
    constructor ()
      ensures openItems == {0}
    {
      openItems := {0};
    }

    /** `toggleItem`: copies the set, flips `index` in the copy and stores
        the copy; the set held before is a value and stays as it was. */
    method ToggleItem(index: nat)
      modifies this
      ensures openItems == Toggled(old(openItems), index)
      ensures index in openItems <==> index !in old(openItems)
      ensures forall i :: i != index ==> (i in openItems <==> i in old(openItems))
    {
      var copy := openItems;
      if index in copy {
        copy := copy - {index};
      } else {
        copy := copy + {index};
      }
      openItems := copy;
    }
  }
}
