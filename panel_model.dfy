/**
 * The panel's state as a value, and one function per operation of the panel and
 * per callback the host delivers to it. The class Widget.SubAppBarPanel is
 * proved to follow these functions; the lemmas here state what holds over any
 * sequence of calls and callbacks.
 *
 * Host facilities are explicit: an animation started by setExpanded is a record
 * in `animations` (its anonymous AnimatorListener), and the host later delivers
 * start, cancel and end to it by index; a Runnable handed to post() is an entry
 * of `pending`, run in order by the host; the movement listener is a sink whose
 * received calls are appended to `delivered`.
 */
module PanelModel {
  import opened Geometry

  datatype Option<T> = None | Some(value: T)

  const DEFAULT_EXPANDED: bool := false
  const DEFAULT_OFFSET_COLLAPSED: int := 0
  const DEFAULT_OFFSET_EXPANDED: int := 0

  /** The styled attributes the panel is inflated with; None is an attribute left unset. */
  datatype StyledAttributes = StyledAttributes(
    panelExpanded: Option<bool>,
    panelOffsetCollapsed: Option<int>,
    panelOffsetExpanded: Option<int>)

  datatype PanelConfig = PanelConfig(startsExpanded: bool, offsetCollapsed: int, offsetExpanded: int)

  /** Attribute resolution in the constructor: each attribute, or its default when unset. */
  function ResolveAttributes(a: StyledAttributes): (c: PanelConfig)
    ensures a.panelExpanded == Some(c.startsExpanded) || (a.panelExpanded == None && c.startsExpanded == DEFAULT_EXPANDED)
    ensures a.panelOffsetCollapsed == Some(c.offsetCollapsed)
            || (a.panelOffsetCollapsed == None && c.offsetCollapsed == DEFAULT_OFFSET_COLLAPSED)
    ensures a.panelOffsetExpanded == Some(c.offsetExpanded)
            || (a.panelOffsetExpanded == None && c.offsetExpanded == DEFAULT_OFFSET_EXPANDED)
  {
    PanelConfig(
      if a.panelExpanded.Some? then a.panelExpanded.value else DEFAULT_EXPANDED,
      if a.panelOffsetCollapsed.Some? then a.panelOffsetCollapsed.value else DEFAULT_OFFSET_COLLAPSED,
      if a.panelOffsetExpanded.Some? then a.panelOffsetExpanded.value else DEFAULT_OFFSET_EXPANDED)
  }

  /** The two calls of OnPanelMovementListener. */
  datatype Movement = Started(expanding: bool) | Ended(expanded: bool)

  /** Identity of a listener object handed to setOnPanelMovementListener. */
  type ListenerId = nat

  /** One call received by a movement listener. */
  datatype Notification = Notification(listener: ListenerId, movement: Movement)

  /** An animation started by setExpanded, with the state of its AnimatorListener. */
  datatype Animation = Animation(target: int, shouldExpand: bool, hasBeenCanceled: bool)

  /** The Runnable posted by the non-animated path of setExpanded. */
  datatype PostedTask = PostedMovement(shouldExpand: bool)

  datatype PanelState = PanelState(
    offsetCollapsed: int,
    offsetExpanded: int,
    expandedOrExpanding: bool,
    offsets: Offsets,
    height: int,
    translationY: int,
    listener: Option<ListenerId>,
    animations: seq<Animation>,
    pending: seq<PostedTask>,
    delivered: seq<Notification>)

  /** A freshly inflated panel: not yet laid out, no listener, nothing in flight. */
  function InitialState(c: PanelConfig): (s: PanelState)
    ensures s.expandedOrExpanding == c.startsExpanded
    ensures s.offsetCollapsed == c.offsetCollapsed && s.offsetExpanded == c.offsetExpanded
    ensures s.offsets == Offsets(0, 0) && s.height == 0 && s.translationY == 0
    ensures s.listener == None && s.animations == [] && s.pending == [] && s.delivered == []
  {
    PanelState(c.offsetCollapsed, c.offsetExpanded, c.startsExpanded, Offsets(0, 0), 0, 0, None, [], [], [])
  }

  /** What the listener currently set receives when the panel reports `m`. */
  function Notify(s: PanelState, m: Movement): seq<Notification> {
    match s.listener
    case None => s.delivered
    case Some(l) => s.delivered + [Notification(l, m)]
  }

  /** initPanelOffsets: recomputes both resting translations from the app bar. */
  function InitPanelOffsets(s: PanelState, appBar: AppBarGeometry): (t: PanelState)
    ensures t.offsets.collapsed + s.height == appBar.Bottom() + s.offsetCollapsed
    ensures t.offsets.expanded + s.offsetExpanded == appBar.Bottom()
    ensures t == s.(offsets := t.offsets)
  {
    s.(offsets := PanelOffsets(appBar, s.height, s.offsetCollapsed, s.offsetExpanded))
  }

  /**
   * setExpanded(shouldExpand, animate). The flag becomes the requested target
   * at once, whether or not an animation is still on its way. Nothing reaches
   * the listener during the call itself.
   */
  function SetExpanded(s: PanelState, shouldExpand: bool, animate: bool): (t: PanelState)
    ensures t.expandedOrExpanding == shouldExpand
    ensures t.delivered == s.delivered
    ensures t.offsets == s.offsets && t.height == s.height && t.listener == s.listener
    ensures t.offsetCollapsed == s.offsetCollapsed && t.offsetExpanded == s.offsetExpanded
    // animated: one new, uncancelled animation towards the requested resting position
    ensures animate ==> t.animations == s.animations + [Animation(TargetTranslation(s.offsets, shouldExpand), shouldExpand, false)]
                        && t.pending == s.pending && t.translationY == s.translationY
    // not animated: the panel snaps to the requested resting position, one deferred report is queued
    ensures !animate ==> t.translationY == (if shouldExpand then s.offsets.expanded else s.offsets.collapsed)
                         && t.pending == s.pending + [PostedMovement(shouldExpand)]
                         && t.animations == s.animations
  {
    var targetTranslation := TargetTranslation(s.offsets, shouldExpand);
    if animate then
      s.(animations := s.animations + [Animation(targetTranslation, shouldExpand, false)],
         expandedOrExpanding := shouldExpand)
    else
      s.(translationY := targetTranslation,
         pending := s.pending + [PostedMovement(shouldExpand)],
         expandedOrExpanding := shouldExpand)
  }

  /** toggle(animate): requests the state opposite to the current target. */
  function Toggle(s: PanelState, animate: bool): (t: PanelState)
    ensures t.expandedOrExpanding == !s.expandedOrExpanding
    ensures t == SetExpanded(s, !s.expandedOrExpanding, animate)
  {
    SetExpanded(s, !s.expandedOrExpanding, animate)
  }

  /** setOnPanelMovementListener: replaces the listener (None stands for null). */
  function SetListener(s: PanelState, listener: Option<ListenerId>): (t: PanelState)
    ensures t.listener == listener
    ensures t == s.(listener := listener)
  {
    s.(listener := listener)
  }

  /** AnimatorListener.onAnimationStart: reports the movement to the listener set now, if any. */
  function OnAnimationStart(s: PanelState, i: nat): (t: PanelState)
    requires i < |s.animations|
    ensures t == s.(delivered := t.delivered)
    ensures s.listener.Some? ==> t.delivered == s.delivered + [Notification(s.listener.value, Started(s.animations[i].shouldExpand))]
    ensures s.listener.None? ==> t.delivered == s.delivered
  {
    s.(delivered := Notify(s, Started(s.animations[i].shouldExpand)))
  }

  /** AnimatorListener.onAnimationCancel: marks that animation as cancelled. */
  function OnAnimationCancel(s: PanelState, i: nat): (t: PanelState)
    requires i < |s.animations|
    ensures |t.animations| == |s.animations| && t.animations[i].hasBeenCanceled
    ensures t.animations[i].target == s.animations[i].target
    ensures t.animations[i].shouldExpand == s.animations[i].shouldExpand
    ensures forall j :: 0 <= j < |s.animations| && j != i ==> t.animations[j] == s.animations[j]
    ensures t == s.(animations := t.animations)
  {
    s.(animations := s.animations[i := s.animations[i].(hasBeenCanceled := true)])
  }

  /**
   * AnimatorListener.onAnimationEnd. An animation that ran to completion has
   * left the view at its target (the animator sets the final value before it
   * calls the listener); the end of the movement is then reported to the
   * listener set now, if any. A cancelled animation reports nothing, and the
   * view stays wherever the cancellation left it.
   */
  function OnAnimationEnd(s: PanelState, i: nat): (t: PanelState)
    requires i < |s.animations|
    ensures t == s.(translationY := t.translationY, delivered := t.delivered)
    ensures !s.animations[i].hasBeenCanceled ==> t.translationY == s.animations[i].target
    ensures s.animations[i].hasBeenCanceled ==> t.translationY == s.translationY
    ensures t.delivered != s.delivered <==> !s.animations[i].hasBeenCanceled && s.listener.Some?
    ensures t.delivered != s.delivered ==>
              t.delivered == s.delivered + [Notification(s.listener.value, Ended(s.animations[i].shouldExpand))]
  {
    if !s.animations[i].hasBeenCanceled then
      s.(translationY := s.animations[i].target,
         delivered := Notify(s, Ended(s.animations[i].shouldExpand)))
    else
      s
  }

  /** The host runs the oldest posted Runnable: started then ended, to the listener set now. */
  function RunPosted(s: PanelState): (t: PanelState)
    requires s.pending != []
    ensures t.pending == s.pending[1..]
    ensures t == s.(pending := t.pending, delivered := t.delivered)
    ensures t.delivered == s.delivered + PostedDelivery(s.listener, [s.pending[0]])
  {
    var b := s.pending[0].shouldExpand;
    var notified := match s.listener
                    case None => s.delivered
                    case Some(l) => s.delivered + [Notification(l, Started(b)), Notification(l, Ended(b))];
    s.(pending := s.pending[1..], delivered := notified)
  }

  /** What running the posted tasks `tasks`, in order, delivers to `listener`. */
  function PostedDelivery(listener: Option<ListenerId>, tasks: seq<PostedTask>): (d: seq<Notification>)
    ensures listener.None? ==> d == []
    ensures listener.Some? ==> |d| == 2 * |tasks|
  {
    match listener
    case None => []
    case Some(l) =>
      if tasks == [] then []
      else [Notification(l, Started(tasks[0].shouldExpand)), Notification(l, Ended(tasks[0].shouldExpand))]
           + PostedDelivery(listener, tasks[1..])
  }

  /** With a listener set, the k-th posted task yields calls 2k and 2k+1: started, then ended. */
  lemma {:induction false} PostedDeliveryPairs(l: ListenerId, tasks: seq<PostedTask>, k: nat)
    requires k < |tasks|
    ensures PostedDelivery(Some(l), tasks)[2 * k] == Notification(l, Started(tasks[k].shouldExpand))
    ensures PostedDelivery(Some(l), tasks)[2 * k + 1] == Notification(l, Ended(tasks[k].shouldExpand))
  {
    if k > 0 {
      PostedDeliveryPairs(l, tasks[1..], k - 1);
    }
  }

  /**
   * Behavior.onDependentViewChanged: recompute both resting translations from
   * the app bar, then re-apply the current target without animating.
   */
  function OnAppBarChanged(s: PanelState, appBar: AppBarGeometry): (t: PanelState)
    ensures t.expandedOrExpanding == s.expandedOrExpanding
    ensures t.offsets == PanelOffsets(appBar, s.height, s.offsetCollapsed, s.offsetExpanded)
    ensures t.translationY == TargetTranslation(t.offsets, s.expandedOrExpanding)
    ensures t.pending == s.pending + [PostedMovement(s.expandedOrExpanding)]
    ensures t.animations == s.animations && t.delivered == s.delivered && t.listener == s.listener
    ensures t == s.(offsets := t.offsets, translationY := t.translationY, pending := t.pending)
  {
    SetExpanded(InitPanelOffsets(s, appBar), s.expandedOrExpanding, false)
  }

  /** The panel is laid out again by the host with a new height. */
  function Measure(s: PanelState, height: int): PanelState {
    s.(height := height)
  }

  /** One public call on the panel, or one callback the host delivers to it. */
  datatype Call =
    | SetExpandedCall(shouldExpand: bool, animate: bool)
    | ToggleCall(animate: bool)
    | SetListenerCall(listener: Option<ListenerId>)
    | AppBarChanged(appBar: AppBarGeometry)
    | AnimationStart(index: nat)
    | AnimationCancel(index: nat)
    | AnimationEnd(index: nat)
    | RunPostedTask
    | Remeasure(height: int)

  /**
   * The effect of one call. The host only delivers animation callbacks to
   * animations that exist and only runs tasks that were posted; anything else
   * leaves the state as it is.
   */
  function Step(s: PanelState, c: Call): PanelState {
    match c
    case SetExpandedCall(b, animate) => SetExpanded(s, b, animate)
    case ToggleCall(animate) => Toggle(s, animate)
    case SetListenerCall(l) => SetListener(s, l)
    case AppBarChanged(g) => OnAppBarChanged(s, g)
    case AnimationStart(i) => if i < |s.animations| then OnAnimationStart(s, i) else s
    case AnimationCancel(i) => if i < |s.animations| then OnAnimationCancel(s, i) else s
    case AnimationEnd(i) => if i < |s.animations| then OnAnimationEnd(s, i) else s
    case RunPostedTask => if s.pending != [] then RunPosted(s) else s
    case Remeasure(h) => Measure(s, h)
  }

  /** The state after the calls `cs`, in order. */
  function Run(s: PanelState, cs: seq<Call>): PanelState
    decreases |cs|
  {
    if cs == [] then s else Run(Step(s, cs[0]), cs[1..])
  }

  lemma RunCons(s: PanelState, c: Call, cs: seq<Call>)
    ensures Run(s, [c] + cs) == Run(Step(s, c), cs)
  {
    assert ([c] + cs)[1..] == cs;
  }

  /** Running one more call after a trace is one more step. */
  lemma {:induction false} RunSnoc(s: PanelState, cs: seq<Call>, c: Call)
    ensures Run(s, cs + [c]) == Step(Run(s, cs), c)
    decreases |cs|
  {
    if cs == [] {
      assert cs + [c] == [c] + [];
      RunCons(s, c, []);
    } else {
      assert cs + [c] == [cs[0]] + (cs[1..] + [c]);
      RunCons(s, cs[0], cs[1..] + [c]);
      RunSnoc(Step(s, cs[0]), cs[1..], c);
      assert cs == [cs[0]] + cs[1..];
      RunCons(s, cs[0], cs[1..]);
    }
  }

  /** Calls that do not request a new target. */
  predicate KeepsTarget(c: Call) {
    !c.SetExpandedCall? && !c.ToggleCall?
  }

  lemma StepKeepsTarget(s: PanelState, c: Call)
    requires KeepsTarget(c)
    ensures Step(s, c).expandedOrExpanding == s.expandedOrExpanding
  {
  }

  /**
   * isExpanded reports the most recent request: callbacks, listener changes and
   * app bar changes never alter it, whatever animation is in flight.
   */
  lemma {:induction false} TargetSurvives(s: PanelState, cs: seq<Call>)
    requires forall k :: 0 <= k < |cs| ==> KeepsTarget(cs[k])
    ensures Run(s, cs).expandedOrExpanding == s.expandedOrExpanding
    decreases |cs|
  {
    if cs != [] {
      StepKeepsTarget(s, cs[0]);
      TargetSurvives(Step(s, cs[0]), cs[1..]);
    }
  }

  /** After setExpanded(b, animate) and any calls that request nothing new, isExpanded() is b. */
  lemma IsExpandedIsLastRequest(s: PanelState, shouldExpand: bool, animate: bool, cs: seq<Call>)
    requires forall k :: 0 <= k < |cs| ==> KeepsTarget(cs[k])
    ensures Run(s, [SetExpandedCall(shouldExpand, animate)] + cs).expandedOrExpanding == shouldExpand
  {
    RunCons(s, SetExpandedCall(shouldExpand, animate), cs);
    TargetSurvives(Step(s, SetExpandedCall(shouldExpand, animate)), cs);
  }

  /** n toggles flip the target n times: an even number of toggles restores it. */
  lemma {:induction false} TogglesFlipTarget(s: PanelState, cs: seq<Call>)
    requires forall k :: 0 <= k < |cs| ==> cs[k].ToggleCall?
    ensures Run(s, cs).expandedOrExpanding == (s.expandedOrExpanding != (|cs| % 2 == 1))
    decreases |cs|
  {
    if cs != [] {
      TogglesFlipTarget(Step(s, cs[0]), cs[1..]);
    }
  }

  lemma ToggleTwiceRestoresTarget(s: PanelState, animate1: bool, animate2: bool)
    ensures Run(s, [ToggleCall(animate1), ToggleCall(animate2)]).expandedOrExpanding == s.expandedOrExpanding
  {
    TogglesFlipTarget(s, [ToggleCall(animate1), ToggleCall(animate2)]);
  }

  /** A step never drops an animation, and never touches a cancelled one. */
  lemma StepKeepsCanceled(s: PanelState, c: Call, i: nat)
    requires i < |s.animations| && s.animations[i].hasBeenCanceled
    ensures i < |Step(s, c).animations| && Step(s, c).animations[i] == s.animations[i]
  {
  }

  lemma {:induction false} CanceledStaysCanceled(s: PanelState, cs: seq<Call>, i: nat)
    requires i < |s.animations| && s.animations[i].hasBeenCanceled
    ensures i < |Run(s, cs).animations| && Run(s, cs).animations[i] == s.animations[i]
    decreases |cs|
  {
    if cs != [] {
      StepKeepsCanceled(s, cs[0], i);
      CanceledStaysCanceled(Step(s, cs[0]), cs[1..], i);
    }
  }

  /**
   * A cancelled animation never reports its end: whatever calls follow the
   * cancellation, the end callback of that animation delivers nothing.
   */
  lemma CanceledNeverEnds(s: PanelState, cs: seq<Call>, i: nat)
    requires i < |s.animations| && s.animations[i].hasBeenCanceled
    ensures Run(s, cs + [AnimationEnd(i)]).delivered == Run(s, cs).delivered
  {
    RunSnoc(s, cs, AnimationEnd(i));
    CanceledStaysCanceled(s, cs, i);
    var t := Run(s, cs);
    assert t.animations[i].hasBeenCanceled;
    assert Step(t, AnimationEnd(i)) == OnAnimationEnd(t, i) == t;
  }

  /** The host running n posted tasks in a row. */
  function PostedTaskRuns(n: nat): seq<Call> {
    if n == 0 then [] else [RunPostedTask] + PostedTaskRuns(n - 1)
  }

  /**
   * Running the first n posted tasks, with no other call in between, delivers a
   * started/ended pair per task, in posting order, to the listener set.
   */
  lemma {:induction false} PostedTasksDeliverPairs(s: PanelState, n: nat)
    requires n <= |s.pending|
    ensures Run(s, PostedTaskRuns(n)).pending == s.pending[n..]
    ensures Run(s, PostedTaskRuns(n)).delivered == s.delivered + PostedDelivery(s.listener, s.pending[..n])
    ensures Run(s, PostedTaskRuns(n)).listener == s.listener
    decreases n
  {
    var cs := PostedTaskRuns(n);
    if n == 0 {
      assert s.pending[..0] == [];
    } else {
      var t := RunPosted(s);
      var rest := PostedTaskRuns(n - 1);
      RunCons(s, RunPostedTask, rest);
      var r := Run(t, rest);
      assert Run(s, cs) == r;
      PostedTasksDeliverPairs(t, n - 1);
      assert r.pending == s.pending[n..] by {
        assert t.pending[n - 1..] == s.pending[n..];
      }
      var first, later := [s.pending[0]], t.pending[..n - 1];
      assert s.pending[..n] == first + later;
      PostedDeliveryAppend(s.listener, first, later);
      calc {
        r.delivered;
        t.delivered + PostedDelivery(s.listener, later);
        s.delivered + PostedDelivery(s.listener, first) + PostedDelivery(s.listener, later);
        s.delivered + PostedDelivery(s.listener, s.pending[..n]);
      }
    }
  }

  lemma {:induction false} PostedDeliveryAppend(listener: Option<ListenerId>, a: seq<PostedTask>, b: seq<PostedTask>)
    ensures PostedDelivery(listener, a + b) == PostedDelivery(listener, a) + PostedDelivery(listener, b)
    decreases |a|
  {
    if a == [] {
      assert a + b == b;
    } else if listener.Some? {
      assert (a + b)[1..] == a[1..] + b;
      PostedDeliveryAppend(listener, a[1..], b);
    }
  }

  /**
   * The non-animated path, end to end: the panel is at the requested resting
   * position on return, nothing is reported yet, and running the posted task
   * reports started(b) then ended(b) to the listener set at that moment.
   */
  lemma SnapThenPostedReport(s: PanelState, shouldExpand: bool, l: ListenerId)
    requires s.pending == [] && s.listener == Some(l)
    ensures var t := Run(s, [SetExpandedCall(shouldExpand, false)]);
            t.translationY == TargetTranslation(s.offsets, shouldExpand) && t.delivered == s.delivered
    ensures Run(s, [SetExpandedCall(shouldExpand, false), RunPostedTask]).delivered
            == s.delivered + [Notification(l, Started(shouldExpand)), Notification(l, Ended(shouldExpand))]
  {
    RunCons(s, SetExpandedCall(shouldExpand, false), []);
    RunCons(s, SetExpandedCall(shouldExpand, false), [RunPostedTask]);
    RunCons(SetExpanded(s, shouldExpand, false), RunPostedTask, []);
  }

  /** A report posted while a listener was set is dropped when the listener is cleared before it runs. */
  lemma PostedReportNeedsListenerWhenRun(s: PanelState, shouldExpand: bool)
    requires s.pending == []
    ensures Run(s, [SetExpandedCall(shouldExpand, false), SetListenerCall(None), RunPostedTask]).delivered == s.delivered
  {
    RunCons(s, SetExpandedCall(shouldExpand, false), [SetListenerCall(None), RunPostedTask]);
    var t := SetExpanded(s, shouldExpand, false);
    RunCons(t, SetListenerCall(None), [RunPostedTask]);
    var u := SetListener(t, None);
    RunCons(u, RunPostedTask, []);
    assert u.pending != [] && u.listener == None;
    assert Step(u, RunPostedTask).delivered == u.delivered == s.delivered;
  }

  /**
   * A movement superseded before it settles: expand with animation, then
   * collapse with animation while the first is running. The host cancels the
   * first animation, then ends it, then runs the second to its end. The
   * listener hears started(true), started(false), ended(false) and never
   * ended(true).
   */
  lemma SupersededMovementReports(s: PanelState, l: ListenerId)
    requires s.animations == [] && s.listener == Some(l)
    ensures var s1 := SetExpanded(s, true, true);
            var s2 := OnAnimationStart(s1, 0);
            var s3 := SetExpanded(s2, false, true);
            var s4 := OnAnimationCancel(s3, 0);
            var s5 := OnAnimationEnd(s4, 0);
            var s6 := OnAnimationStart(s5, 1);
            var s7 := OnAnimationEnd(s6, 1);
            s7.delivered == s.delivered + [Notification(l, Started(true)), Notification(l, Started(false)), Notification(l, Ended(false))]
            && s7.translationY == s.offsets.collapsed
  {
  }

  /**
   * An animated move that completes leaves the panel at the requested resting
   * position, with started(b) and ended(b) reported.
   */
  lemma AnimatedMoveSettles(s: PanelState, shouldExpand: bool, l: ListenerId)
    requires s.listener == Some(l)
    ensures var i := |s.animations|;
            var t := OnAnimationEnd(OnAnimationStart(SetExpanded(s, shouldExpand, true), i), i);
            t.translationY == TargetTranslation(s.offsets, shouldExpand)
            && t.expandedOrExpanding == shouldExpand
            && t.delivered == s.delivered + [Notification(l, Started(shouldExpand)), Notification(l, Ended(shouldExpand))]
  {
  }

  /**
   * Re-running the app-bar callback with the same geometry lands on the same
   * offsets, translation and target; it queues one more movement report.
   */
  lemma AppBarChangedIdempotent(s: PanelState, appBar: AppBarGeometry)
    ensures var t := OnAppBarChanged(s, appBar);
            var u := OnAppBarChanged(t, appBar);
            u.offsets == t.offsets && u.translationY == t.translationY
            && u.expandedOrExpanding == t.expandedOrExpanding
            && u.pending == t.pending + [PostedMovement(s.expandedOrExpanding)]
  {
  }
}
