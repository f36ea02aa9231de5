/** The entry screen: a chooser with four cards, each of which switches to
    one of the layouts, and the `onBack` callback each layout receives to
    return to the chooser. */
module LayoutSelector {
  import opened Common

  datatype LayoutChoice = Layout1 | Layout2 | Layout3 | Layout4

  /** What is on screen. */
  datatype Screen = Chooser | ShowLayout(layout: LayoutChoice)

  /** The render: the chosen layout, or the chooser when nothing is chosen. */
  function Render(sel: Option<LayoutChoice>): (s: Screen)
    ensures s == Chooser <==> sel.None?
    ensures sel.Some? ==> s == ShowLayout(sel.value)
  {
    match sel
    case None => Chooser
    case Some(l) => ShowLayout(l)
  }

  datatype SelectorEvent =
    | PickCard(choice: LayoutChoice)  // a chooser card
    | Back                            // a layout's back button, `onBack`

  /** One event. The cards exist only on the chooser and the back button
      only inside a layout; elsewhere the event changes nothing. */
  function Step(sel: Option<LayoutChoice>, e: SelectorEvent): (r: Option<LayoutChoice>)
    ensures e.PickCard? && sel.None? ==> r == Some(e.choice)
    ensures e.Back? ==> r.None?
    ensures r != sel ==> (e.PickCard? && sel.None?) || (e.Back? && sel.Some?)
  {
    match e
    case PickCard(l) => if sel.None? then Some(l) else sel
    case Back => None
  }

  /** From a layout the only way anywhere else is back to the chooser. */
  lemma OnlyBackLeavesLayout(l: LayoutChoice, e: SelectorEvent)
    ensures Step(Some(l), e) == Some(l) || Step(Some(l), e).None?
    ensures Step(Some(l), e).None? <==> e.Back?
  {
  }

  /** Back is idempotent, and picking a card then going back returns to the
      chooser. */
  lemma BackReturnsToChooser(sel: Option<LayoutChoice>, l: LayoutChoice)
    ensures Step(Step(sel, Back), Back) == Step(sel, Back)
    ensures Render(Step(Step(None, PickCard(l)), Back)) == Chooser
  {
  }

  /** The four cards open four different layouts. */
  lemma CardsOpenDistinctLayouts(a: LayoutChoice, b: LayoutChoice)
    ensures Render(Step(None, PickCard(a))) == Render(Step(None, PickCard(b))) <==> a == b
  {
  }

  /** The `selectedLayout` state cell. */
  class Selector {
    var selectedLayout: Option<LayoutChoice>

    /** `useState(null)`: the chooser is shown. */
    constructor()
      ensures selectedLayout.None?
      ensures Render(selectedLayout) == Chooser
    {
      selectedLayout := None;
    }

    /** A chooser card: `setSelectedLayout("layoutk")`. */
    method PickCard(l: LayoutChoice)
      requires selectedLayout.None?
      modifies this
      ensures selectedLayout == Step(old(selectedLayout), SelectorEvent.PickCard(l))
      ensures Render(selectedLayout) == ShowLayout(l)
    {
      selectedLayout := Some(l);
    }

    /** A layout's `onBack`: `setSelectedLayout(null)`. */
    method Back()
      requires selectedLayout.Some?
      modifies this
      ensures selectedLayout == Step(old(selectedLayout), SelectorEvent.Back)
      ensures Render(selectedLayout) == Chooser
    {
      selectedLayout := None;
    }
  }
}
