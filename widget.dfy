/**
 * The widget itself: the panel view whose fields its methods update in place,
 * the sibling view that the panel pushes down, and the two layout behaviours
 * the host layout container calls when a view they depend on changes.
 *
 * Every method that changes the panel is proved to move it exactly as the
 * matching function of PanelModel moves State().
 */
module Widget {
  import opened Geometry
  import opened PanelModel

  class SubAppBarPanel {
    /** How much the panel shows below the app bar when collapsed. */
    const offsetCollapsed: int
    /** How much the panel stays covered by the app bar when expanded. */
    const offsetExpanded: int
    /** The requested target state, set even while an animation is running. */
    var expandedOrExpanding: bool
    var targetTranslationYCollapsed: int
    var targetTranslationYExpanded: int
    var listener: Option<ListenerId>

    // View state owned by the host toolkit.
    var height: int
    var translationY: int

    /** Animations started by setExpanded, each with its AnimatorListener's state. */
    var animations: seq<Animation>
    /** Runnables posted to the main thread and not yet run. */
    var pending: seq<PostedTask>
    /** The calls movement listeners have received so far. */
    var delivered: seq<Notification>

    /** The panel as a value. */
    function State(): PanelState
      reads this
    {
      PanelState(offsetCollapsed, offsetExpanded, expandedOrExpanding,
                 Offsets(targetTranslationYCollapsed, targetTranslationYExpanded),
                 height, translationY, listener, animations, pending, delivered)
    }

    /** Inflation: the styled attributes, or their defaults (not expanded, both offsets 0). */
    constructor (attrs: StyledAttributes)
      ensures State() == InitialState(ResolveAttributes(attrs))
    {
      var config := ResolveAttributes(attrs);
      expandedOrExpanding := config.startsExpanded;
      offsetCollapsed := config.offsetCollapsed;
      offsetExpanded := config.offsetExpanded;
      targetTranslationYCollapsed, targetTranslationYExpanded := 0, 0;
      listener := None;
      height, translationY := 0, 0;
      animations, pending, delivered := [], [], [];
    }

    method InitPanelOffsets(appBar: AppBarGeometry)
      modifies this
      ensures State() == PanelModel.InitPanelOffsets(old(State()), appBar)
    {
      targetTranslationYCollapsed := appBar.y + appBar.height - height + offsetCollapsed;
      targetTranslationYExpanded := appBar.y + appBar.height - offsetExpanded;
    }

    method SetExpanded(shouldExpand: bool, animate: bool)
      modifies this
      ensures State() == PanelModel.SetExpanded(old(State()), shouldExpand, animate)
      ensures IsExpanded() == shouldExpand
    {
      var targetTranslation;
      if shouldExpand {
        targetTranslation := targetTranslationYExpanded;
      } else {
        targetTranslation := targetTranslationYCollapsed;
      }

      if animate {
        animations := animations + [Animation(targetTranslation, shouldExpand, false)];
      } else {
        translationY := targetTranslation;
        pending := pending + [PostedMovement(shouldExpand)];
      }

      expandedOrExpanding := shouldExpand;
    }

    /** True if the panel is expanded or on its way to being expanded. */
    function IsExpanded(): bool
      reads this
    {
      expandedOrExpanding
    }

    /** setExpanded(shouldExpand) with animation. */
    method SetExpandedAnimated(shouldExpand: bool)
      modifies this
      ensures State() == PanelModel.SetExpanded(old(State()), shouldExpand, true)
    {
      SetExpanded(shouldExpand, true);
    }

    /** toggle() with animation. */
    method ToggleAnimated()
      modifies this
      ensures State() == PanelModel.Toggle(old(State()), true)
    {
      Toggle(true);
    }

    method Toggle(animate: bool)
      modifies this
      ensures State() == PanelModel.Toggle(old(State()), animate)
      ensures IsExpanded() == !old(IsExpanded())
    {
      SetExpanded(!expandedOrExpanding, animate);
    }

    method SetOnPanelMovementListener(listener: Option<ListenerId>)
      modifies this
      ensures State() == PanelModel.SetListener(old(State()), listener)
    {
      this.listener := listener;
    }

    /** The host starts animation i. */
    method OnAnimationStart(i: nat)
      requires i < |animations|
      modifies this
      ensures State() == PanelModel.OnAnimationStart(old(State()), i)
    {
      if listener.Some? {
        delivered := delivered + [Notification(listener.value, Started(animations[i].shouldExpand))];
      }
    }

    /** The host cancels animation i. */
    method OnAnimationCancel(i: nat)
      requires i < |animations|
      modifies this
      ensures State() == PanelModel.OnAnimationCancel(old(State()), i)
    {
      animations := animations[i := animations[i].(hasBeenCanceled := true)];
    }

    /**
     * The host ends animation i, either after cancelling it or when it completes.
     * In the second case the animator has left the view at the animation's target.
     */
    method OnAnimationEnd(i: nat)
      requires i < |animations|
      modifies this
      ensures State() == PanelModel.OnAnimationEnd(old(State()), i)
    {
      if !animations[i].hasBeenCanceled {
        translationY := animations[i].target;
        if listener.Some? {
          delivered := delivered + [Notification(listener.value, Ended(animations[i].shouldExpand))];
        }
      }
    }

    /** The host runs the oldest posted Runnable. */
    method RunPostedTask()
      requires pending != []
      modifies this
      ensures State() == PanelModel.RunPosted(old(State()))
    {
      var shouldExpand := pending[0].shouldExpand;
      pending := pending[1..];
      if listener.Some? {
        delivered := delivered + [Notification(listener.value, Started(shouldExpand)),
                                  Notification(listener.value, Ended(shouldExpand))];
      }
    }

    /** The host lays the panel out with a new height. */
    method Measure(newHeight: int)
      modifies this
      ensures State() == PanelModel.Measure(old(State()), newHeight)
    {
      height := newHeight;
    }
  }

  /** The view the panel pushes down: its translation and its layout height. */
  class ScrollingView {
    var translationY: int
    var layoutHeight: int

    constructor (translationY: int, layoutHeight: int)
      ensures this.translationY == translationY && this.layoutHeight == layoutHeight
    {
      this.translationY := translationY;
      this.layoutHeight := layoutHeight;
    }
  }

  /** The panel's default behaviour: it stays below the app bar and expands below it. */
  class Behavior {
    /** The app bar moved or was resized. */
    static method OnDependentViewChanged(child: SubAppBarPanel, dependency: AppBarGeometry) returns (changed: bool)
      modifies child
      ensures changed
      ensures child.State() == OnAppBarChanged(old(child.State()), dependency)
    {
      child.InitPanelOffsets(dependency);
      var expanded := child.IsExpanded();
      child.SetExpanded(expanded, false);
      return true;
    }
  }

  /** The behaviour of the view that the panel pushes down. */
  class ScrollingViewBehavior {
    /** The panel moved: the child starts at the panel's bottom edge and fills the parent below it. */
    static method OnDependentViewChanged(parentHeight: int, child: ScrollingView, dependency: SubAppBarPanel)
      returns (changed: bool)
      modifies child
      ensures changed
      ensures child.translationY == dependency.translationY + dependency.height
      ensures child.translationY + child.layoutHeight == parentHeight
      ensures SiblingGeometry(child.translationY, child.layoutHeight)
              == SiblingLayout(dependency.translationY, dependency.height, parentHeight)
    {
      var newChildTranslationY := dependency.translationY + dependency.height;
      child.translationY := newChildTranslationY;
      child.layoutHeight := parentHeight - newChildTranslationY;
      return true;
    }
  }
}
