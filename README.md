# SubAppBarPanel in Dafny

A model of `SubAppBarPanel`, an Android panel that slides out from under the app
bar. The model covers its layout arithmetic, its expanded/collapsed state machine,
the movement notifications it sends to its listener, and the two layout behaviours
the host layout container calls.

- `geometry.dfy`, module `Geometry`. This is the pure arithmetic. `PanelOffsets` gives
  the two resting translations (`initPanelOffsets`). `TargetTranslation` picks one of
  them for a requested state. `SiblingLayout` places the view that the panel pushes down.
- `panel_model.dfy`, module `PanelModel`. The panel's whole state is the value
  `PanelState`, and each operation and host callback is a function on it. A `Call`
  datatype with `Step` and `Run` replays any sequence of calls and callbacks. The
  lemmas about those sequences are here.
- `widget.dfy`, module `Widget`. The classes `SubAppBarPanel` and `ScrollingView` have
  fields that their methods update in place. `Behavior` and `ScrollingViewBehavior` hold
  the two `onDependentViewChanged` callbacks. Each mutating method of the panel ensures
  `State() == PanelModel.<Op>(old(State()), ...)`, so the lemmas of `PanelModel` apply
  to the object.

Host facilities are modelled as follows:

- Each animation started by `setExpanded(_, true)` is a record in `animations`. The
  record holds the animation's target, its `shouldExpand` and its listener's
  `hasBeenCanceled` flag.
- The host delivers start, cancel and end to an animation record by its index.
- A `Runnable` given to `post` is an entry of `pending`. The host runs these entries
  oldest first (`RunPostedTask`).
- The movement listener is an optional identity. Every call it receives is appended to
  `delivered`, together with the listener that received it.
- The panel's height is set by the host's layout pass (`Measure`). The app bar's
  geometry is passed as a parameter.

The `expandedOrExpanding` flag holds the requested target, not the settled position.
`setExpanded` sets it at once, even while an animation is still running, and no
animation callback ever changes it. The non-animated path moves the panel at once.
It does not notify the listener during the call. It posts one task, and that task
reports started(b) and then ended(b) to whichever listener is set when the task runs.
Every app-bar change re-applies the current state without animation, so each such
callback also queues one started/ended report, even when the panel does not move.

Two consequences of the code are easy to get wrong:

- The two resting positions differ by `expanded - collapsed == panelHeight -
  offsetCollapsed - offsetExpanded` (SubAppBarPanel.java:92-100). So expanding moves
  the panel down exactly when the panel is at least as tall as the two offsets
  together (`ExpandedBelowCollapsedIff`). With large offsets the expanded position
  can lie above the collapsed one.
- The non-animated path notifies nothing during the call. The started/ended pair is
  posted (:156-164) and arrives only when the posted task runs. The listener's
  documentation (:224-226) says only that ended comes "right after" started.

## Model

| member | source | states |
|---|---|---|
| Geometry.PanelOffsets | subappbarpanel/src/main/java/com/davidferrand/subappbarpanel/SubAppBarPanel.java:92-100 | Collapsed, the panel's bottom edge is offsetCollapsed below the app bar's bottom edge. Expanded, its top edge is offsetExpanded above the bar's bottom edge. The travel between the two is panelHeight − offsetCollapsed − offsetExpanded. |
| Geometry.TargetTranslation | subappbarpanel/src/main/java/com/davidferrand/subappbarpanel/SubAppBarPanel.java:119-124 | The target setExpanded aims at is always one of the two resting translations. |
| Geometry.TargetIsExpandedIff | subappbarpanel/src/main/java/com/davidferrand/subappbarpanel/SubAppBarPanel.java:119-124 | When the two resting positions differ, the expanded translation is chosen if and only if expansion is requested, and the collapsed one if and only if it is not. |
| Geometry.ExpandedBelowCollapsedIff | subappbarpanel/src/main/java/com/davidferrand/subappbarpanel/SubAppBarPanel.java:92-100 | expanded ≥ collapsed if and only if panelHeight ≥ offsetCollapsed + offsetExpanded. |
| Geometry.OffsetsFollowAppBar | subappbarpanel/src/main/java/com/davidferrand/subappbarpanel/SubAppBarPanel.java:92-100 | Moving the app bar by d pixels moves both resting translations by d pixels. |
| Geometry.SiblingLayout | subappbarpanel/src/main/java/com/davidferrand/subappbarpanel/SubAppBarPanel.java:289-293 | The sibling's top is the panel's bottom edge (translationY + height). Its top plus its height is the parent's height, so it fills the parent below the panel. |
| PanelModel.ResolveAttributes | subappbarpanel/src/main/java/com/davidferrand/subappbarpanel/SubAppBarPanel.java:83-86 | Each setting is the styled attribute when given. Otherwise it is the default: not expanded, offsets 0 and 0 (lines 42-44). |
| PanelModel.InitialState | subappbarpanel/src/main/java/com/davidferrand/subappbarpanel/SubAppBarPanel.java:55-67 | A new panel has the resolved flag and offsets, both targets 0, translation and height 0, no listener, no animation, nothing posted and nothing delivered. |
| PanelModel.InitPanelOffsets | subappbarpanel/src/main/java/com/davidferrand/subappbarpanel/SubAppBarPanel.java:92-100 | Both targets are recomputed from the app bar and the panel's current height, with the same edge relations as PanelOffsets. Nothing else changes. |
| PanelModel.SetExpanded | subappbarpanel/src/main/java/com/davidferrand/subappbarpanel/SubAppBarPanel.java:118-168 | The flag becomes shouldExpand whatever animate is. Nothing is delivered during the call. Animated: one new uncancelled animation towards the requested target, with translation and queue untouched. Not animated: translation snaps to the requested target and exactly one report for shouldExpand is queued. |
| PanelModel.Toggle | subappbarpanel/src/main/java/com/davidferrand/subappbarpanel/SubAppBarPanel.java:201-203 | toggle(animate) is setExpanded(!flag, animate), so the flag flips. |
| PanelModel.SetListener | subappbarpanel/src/main/java/com/davidferrand/subappbarpanel/SubAppBarPanel.java:210-212 | Only the listener changes, to the one given (None for null). |
| PanelModel.OnAnimationStart | subappbarpanel/src/main/java/com/davidferrand/subappbarpanel/SubAppBarPanel.java:131-135 | started(shouldExpand) of that animation goes to the listener set at that moment, and nothing goes out when none is set. Nothing else changes. |
| PanelModel.OnAnimationCancel | subappbarpanel/src/main/java/com/davidferrand/subappbarpanel/SubAppBarPanel.java:145-147 | Only that animation's hasBeenCanceled becomes true. Its target, its direction and every other animation stay unchanged. |
| PanelModel.OnAnimationEnd | subappbarpanel/src/main/java/com/davidferrand/subappbarpanel/SubAppBarPanel.java:127-142 | Something is delivered if and only if the animation was not cancelled and a listener is set. What is delivered is ended(shouldExpand) to that listener. An animation that completes has left the panel at its target, the translation given to animate() at :127. A cancelled animation leaves the translation where it was. |
| PanelModel.RunPosted | subappbarpanel/src/main/java/com/davidferrand/subappbarpanel/SubAppBarPanel.java:156-164 | The oldest posted task is removed. It delivers started(b) then ended(b) to the listener set when it runs, and nothing when none is set. |
| PanelModel.PostedDelivery | subappbarpanel/src/main/java/com/davidferrand/subappbarpanel/SubAppBarPanel.java:158-163 | Running posted tasks delivers nothing without a listener, and exactly two calls per task with one. |
| PanelModel.PostedDeliveryPairs | subappbarpanel/src/main/java/com/davidferrand/subappbarpanel/SubAppBarPanel.java:158-163 | With a listener set, the k-th posted task yields calls 2k and 2k+1: started(b) then ended(b) with that task's b. One pair per task, in posting order. |
| PanelModel.OnAppBarChanged | subappbarpanel/src/main/java/com/davidferrand/subappbarpanel/SubAppBarPanel.java:259-266 | Both targets are recomputed from the app bar. The flag is unchanged. The translation snaps to the target matching the flag. One report is queued. Animations, listener and delivered calls are unchanged. Nothing else changes. |
| PanelModel.TargetSurvives | subappbarpanel/src/main/java/com/davidferrand/subappbarpanel/SubAppBarPanel.java:167-177 | No sequence of animation callbacks, posted tasks, listener changes, app-bar changes or re-measures changes the flag that isExpanded reports. |
| PanelModel.IsExpandedIsLastRequest | subappbarpanel/src/main/java/com/davidferrand/subappbarpanel/SubAppBarPanel.java:118-177 | After setExpanded(b, animate), followed by any calls that request nothing new, isExpanded() is b. |
| PanelModel.TogglesFlipTarget | subappbarpanel/src/main/java/com/davidferrand/subappbarpanel/SubAppBarPanel.java:201-203 | After n toggles with any animate flags, the flag is the original one flipped n times. |
| PanelModel.ToggleTwiceRestoresTarget | subappbarpanel/src/main/java/com/davidferrand/subappbarpanel/SubAppBarPanel.java:191-203 | Two toggles restore the original flag. |
| PanelModel.StepKeepsCanceled | subappbarpanel/src/main/java/com/davidferrand/subappbarpanel/SubAppBarPanel.java:144-147 | No call removes an animation record or alters a cancelled one. |
| PanelModel.CanceledStaysCanceled | subappbarpanel/src/main/java/com/davidferrand/subappbarpanel/SubAppBarPanel.java:128-147 | Once cancelled, an animation's record stays exactly as it is through any sequence of calls. |
| PanelModel.CanceledNeverEnds | subappbarpanel/src/main/java/com/davidferrand/subappbarpanel/SubAppBarPanel.java:137-147 | Whatever calls follow a cancellation, the end callback of the cancelled animation delivers nothing. |
| PanelModel.PostedTasksDeliverPairs | subappbarpanel/src/main/java/com/davidferrand/subappbarpanel/SubAppBarPanel.java:156-164 | Running the first n posted tasks removes them from the queue. It delivers one started/ended pair per task, in posting order, to the listener set. |
| PanelModel.SnapThenPostedReport | subappbarpanel/src/main/java/com/davidferrand/subappbarpanel/SubAppBarPanel.java:154-165 | setExpanded(b, false) leaves the panel at the requested target with nothing yet delivered. Running the posted task then delivers started(b), ended(b). |
| PanelModel.PostedReportNeedsListenerWhenRun | subappbarpanel/src/main/java/com/davidferrand/subappbarpanel/SubAppBarPanel.java:158-163 | If the listener is cleared between setExpanded(b, false) and the posted task, nothing is delivered. |
| PanelModel.SupersededMovementReports | subappbarpanel/src/main/java/com/davidferrand/subappbarpanel/SubAppBarPanel.java:126-153 | Expand (animated), then collapse (animated) before the first animation settles. The first animation is cancelled and ended. The listener hears started(true), started(false), ended(false), and never ended(true). The panel ends at the collapsed position. |
| PanelModel.AnimatedMoveSettles | subappbarpanel/src/main/java/com/davidferrand/subappbarpanel/SubAppBarPanel.java:118-153 | An animated setExpanded(b) whose animation starts and completes leaves the panel at the resting position for b, with the flag b. The listener hears started(b), then ended(b). |
| PanelModel.AppBarChangedIdempotent | subappbarpanel/src/main/java/com/davidferrand/subappbarpanel/SubAppBarPanel.java:259-266 | Running the app-bar callback twice with the same geometry gives the same targets, translation and flag as running it once. It queues one more report. |
| Widget.SubAppBarPanel.constructor | subappbarpanel/src/main/java/com/davidferrand/subappbarpanel/SubAppBarPanel.java:77-90 | A new panel is InitialState of the resolved attributes. |
| Widget.SubAppBarPanel.InitPanelOffsets | subappbarpanel/src/main/java/com/davidferrand/subappbarpanel/SubAppBarPanel.java:92-100 | Updates the two target fields in place, as PanelModel.InitPanelOffsets. |
| Widget.SubAppBarPanel.SetExpanded | subappbarpanel/src/main/java/com/davidferrand/subappbarpanel/SubAppBarPanel.java:118-168 | Updates the panel in place, as PanelModel.SetExpanded. Afterwards IsExpanded() is shouldExpand. |
| Widget.SubAppBarPanel.IsExpanded | subappbarpanel/src/main/java/com/davidferrand/subappbarpanel/SubAppBarPanel.java:175-177 | Returns the requested-target flag, not the settled position. What it reports is stated by SetExpanded and Toggle here, and by PanelModel.TargetSurvives and PanelModel.IsExpandedIsLastRequest. |
| Widget.SubAppBarPanel.SetExpandedAnimated | subappbarpanel/src/main/java/com/davidferrand/subappbarpanel/SubAppBarPanel.java:184-186 | setExpanded(b) is setExpanded(b, true). |
| Widget.SubAppBarPanel.ToggleAnimated | subappbarpanel/src/main/java/com/davidferrand/subappbarpanel/SubAppBarPanel.java:191-193 | toggle() is toggle(true). |
| Widget.SubAppBarPanel.Toggle | subappbarpanel/src/main/java/com/davidferrand/subappbarpanel/SubAppBarPanel.java:201-203 | Updates the panel as PanelModel.Toggle. IsExpanded() is the negation of what it was. |
| Widget.SubAppBarPanel.SetOnPanelMovementListener | subappbarpanel/src/main/java/com/davidferrand/subappbarpanel/SubAppBarPanel.java:210-212 | Replaces the listener field, as PanelModel.SetListener. |
| Widget.SubAppBarPanel.OnAnimationStart | subappbarpanel/src/main/java/com/davidferrand/subappbarpanel/SubAppBarPanel.java:131-135 | As PanelModel.OnAnimationStart. |
| Widget.SubAppBarPanel.OnAnimationCancel | subappbarpanel/src/main/java/com/davidferrand/subappbarpanel/SubAppBarPanel.java:145-147 | As PanelModel.OnAnimationCancel. |
| Widget.SubAppBarPanel.OnAnimationEnd | subappbarpanel/src/main/java/com/davidferrand/subappbarpanel/SubAppBarPanel.java:127-142 | As PanelModel.OnAnimationEnd: a completed animation leaves translationY at its target, and ended is reported only if it was not cancelled. |
| Widget.SubAppBarPanel.RunPostedTask | subappbarpanel/src/main/java/com/davidferrand/subappbarpanel/SubAppBarPanel.java:156-164 | As PanelModel.RunPosted. |
| Widget.Behavior.OnDependentViewChanged | subappbarpanel/src/main/java/com/davidferrand/subappbarpanel/SubAppBarPanel.java:259-266 | Returns true and moves the panel as PanelModel.OnAppBarChanged: targets recomputed, then the current flag re-applied without animation. |
| Widget.ScrollingViewBehavior.OnDependentViewChanged | subappbarpanel/src/main/java/com/davidferrand/subappbarpanel/SubAppBarPanel.java:286-297 | Returns true. The child's translation is the panel's translationY + height, and its layout height is the parent's height minus that, as SiblingLayout. |

## Left out

- The animation engine is not modelled. Frame stepping, interpolation, and the moment the framework cancels or ends an animation are left out. Start, cancel and end arrive as host calls on an animation record, in any order the host chooses.
- The translation moves only in whole steps. While an animation runs, the panel stays where it was. A completed animation puts it at the animation's target. A cancelled animation leaves it where it was, not at the intermediate frame where the cancellation stopped it.
- `onAnimationRepeat` has an empty body and is left out.
- Translations are floats in the source and whole pixels here. The `(int)` cast of the sibling's height becomes the identity, and float rounding is not modelled.
- The main-thread queue is only an ordered list of posted tasks, run oldest first by an explicit step. Its timing is not modelled.
- Theme and `TypedArray` attribute lookup are left out, along with `recycle` and the `Context` constructors. Only the resolved values and their defaults are modelled.
- `layoutDependsOn` and its `instanceof` tests are left out. They tell the host which views to watch and compute nothing about the panel.
- The casts of the dependency to `AppBarLayout` and of the layout params are left out. The callbacks take the app bar's geometry and the sibling view directly.
- Of the layout params, only the sibling's height is modelled.
- A listener is modelled only by its identity. What it does with the calls it receives is outside the model.
- The sample activity is not part of this model. It toggles the panel on a toolbar tap and logs movements, and has no logic of its own.
