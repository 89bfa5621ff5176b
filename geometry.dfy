/**
 * Layout arithmetic of the sub-app-bar panel: where the panel rests when it is
 * collapsed or expanded, given the app bar it hangs under, and where a sibling
 * view that the panel pushes down is placed.
 *
 * All distances are whole pixels. Translations are vertical (translationY):
 * a larger value means further down the screen. A view's top on screen is its
 * laid-out top plus its translationY; the panel is laid out at the top of its
 * parent (top 0), so its translationY is its top edge, and "top edge" and
 * "bottom edge" below are read that way.
 */
module Geometry {

  /** The app bar the panel follows: its top (getY) and its height (getHeight). */
  datatype AppBarGeometry = AppBarGeometry(y: int, height: int)
  {
    /** The app bar's bottom edge. */
    function Bottom(): int {
      y + height
    }
  }

  /** The two resting translations of the panel (targetTranslationYCollapsed/Expanded). */
  datatype Offsets = Offsets(collapsed: int, expanded: int)

  /**
   * initPanelOffsets. offsetCollapsed says how much of the panel still shows
   * below the app bar when collapsed; offsetExpanded says how much of it stays
   * covered by the app bar when expanded.
   */
  function PanelOffsets(appBar: AppBarGeometry, panelHeight: int,
                        offsetCollapsed: int, offsetExpanded: int): (o: Offsets)
    // collapsed: the panel's bottom edge sits offsetCollapsed below the bar's bottom edge
    ensures o.collapsed + panelHeight == appBar.Bottom() + offsetCollapsed
    // expanded: the panel's top edge sits offsetExpanded above the bar's bottom edge
    ensures o.expanded + offsetExpanded == appBar.Bottom()
    // the distance the panel travels between its two resting positions
    ensures o.expanded - o.collapsed == panelHeight - offsetCollapsed - offsetExpanded
  {
    Offsets(appBar.y + appBar.height - panelHeight + offsetCollapsed,
            appBar.y + appBar.height - offsetExpanded)
  }

  /** The translation setExpanded aims at for the requested state. */
  function TargetTranslation(o: Offsets, shouldExpand: bool): (t: int)
    ensures t == o.expanded || t == o.collapsed
  {
    if shouldExpand then o.expanded else o.collapsed
  }

  /**
   * The expanded translation is chosen exactly when expansion is requested,
   * unless both resting positions coincide.
   */
  lemma TargetIsExpandedIff(o: Offsets, shouldExpand: bool)
    requires o.expanded != o.collapsed
    ensures TargetTranslation(o, shouldExpand) == o.expanded <==> shouldExpand
    ensures TargetTranslation(o, shouldExpand) == o.collapsed <==> !shouldExpand
  {
  }

  /**
   * Expanding moves the panel down (or keeps it in place) exactly when the panel
   * is at least as tall as the two offsets together.
   */
  lemma ExpandedBelowCollapsedIff(appBar: AppBarGeometry, panelHeight: int,
                                  offsetCollapsed: int, offsetExpanded: int)
    ensures var o := PanelOffsets(appBar, panelHeight, offsetCollapsed, offsetExpanded);
            o.expanded >= o.collapsed <==> panelHeight >= offsetCollapsed + offsetExpanded
  {
  }

  /**
   * The panel follows the app bar: moving the bar by d pixels moves both
   * resting positions by d pixels.
   */
  lemma OffsetsFollowAppBar(appBar: AppBarGeometry, d: int, panelHeight: int,
                            offsetCollapsed: int, offsetExpanded: int)
    ensures var o := PanelOffsets(appBar, panelHeight, offsetCollapsed, offsetExpanded);
            var moved := PanelOffsets(appBar.(y := appBar.y + d), panelHeight, offsetCollapsed, offsetExpanded);
            moved.collapsed == o.collapsed + d && moved.expanded == o.expanded + d
  {
  }

  /** Placement of the view that the panel pushes down: its top and its layout height. */
  datatype SiblingGeometry = SiblingGeometry(top: int, height: int)

  /**
   * ScrollingViewBehavior.onDependentViewChanged: the sibling starts at the
   * panel's bottom edge and fills the parent down to the parent's bottom edge.
   */
  function SiblingLayout(panelTranslationY: int, panelHeight: int, parentHeight: int): (g: SiblingGeometry)
    ensures g.top == panelTranslationY + panelHeight
    ensures g.top + g.height == parentHeight
  {
    var newChildTranslationY := panelTranslationY + panelHeight;
    SiblingGeometry(newChildTranslationY, parentHeight - newChildTranslationY)
  }
}
