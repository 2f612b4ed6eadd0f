# SlideSideMenu in Dafny

A model of the two widgets of the SlideSideMenu Android library, with proofs
about their behaviour.

- **SlideSideMenuTransitionLayout** is a FrameLayout with two children: a menu
  pane behind and a content pane in front. A slide factor in [0,1] places the
  pair between "closed" (0) and "open" (1):
  - the content pane slides right and shrinks;
  - the menu pane settles from an over-scaled start to its natural size;
  - the menu is hidden exactly at 0.

  The menu opens and closes by an animator of the factor, by `toggle`, or by
  touch: a fling or a swipe from the left edge, and a tap on the content of an
  open menu to close it.
- **SlideSideMenuContentCardView** is a CardView used as the content pane. It
  listens to the factor and grows its elevation and corner radius with it. It
  shifts its margins outward by the shadow padding the card adds.

## How the model is built

**Java numerics.** `java_numerics.dfy` holds the Java conversions the code
relies on, over unbounded integers and exact reals:
- the `(int)`/`(long)` narrowing of a float, which truncates toward zero;
- `Math.round`, which is floor(x + 0.5);
- `Math.abs`.

**The layout as a value.** `side_menu_model.dfy` (module `SideMenuModel`)
describes the layout.
- Every field of the layout that changes is a component of the datatype
  `Layout`. The tap and fling duration limits (`mTouchTapDurationMax`,
  `mTouchFlingMaxDuration`) are never reassigned and are module constants.
  The scratch array `mHelpArrayInt2` only carries the screen position of the
  content pane, which is a parameter here.
- Every method of the layout is a function from the old `Layout` to the new
  one, returning an `Outcome` where the Java method returns a boolean.
- What the layout does to the outside world is appended to `trace`:
  - animators started and cancelled;
  - `onSideMenuOpened`, `onSideMenuClosed` and `onSideMenuFirstReveal` calls
    of the state listener;
  - factor broadcasts to a pane that is an update listener.
- The module also holds:
  - the invariant `Valid`;
  - a proof that every entry point keeps it, and that any sequence of calls,
    animator ticks and touch events does (`RunKeepsValid`);
  - the behavioural properties listed below.

**The layout as a class.** `side_menu_layout.dfy` (module `SideMenuLayout`)
is the same layout as a class, `TransitionLayout`.
- Its fields are updated in place by methods that follow the Java statements.
- Each method is proved to move the ghost `Snapshot()` of its fields exactly
  as the matching `SideMenuModel` function does. Everything proved about the
  model therefore holds of the class.
- The two panes are one field, `panes`: the translation, the scales and the
  menu visibility the layout last pushed into them.
- `trace` records the effects, in the same form as the model's `trace`.

**The card view.** `content_card.dfy` (module `ContentCard`) is the card view,
as a class over its stored factor and maxima, plus the class of the layout
parameters object it edits in place.

**Quirks kept as in the code.** The model keeps these behaviours of the Java
code exactly as written, and states each in a contract:
- `mAnimation` is cleared only just before a new animator replaces it, so
  after the first animation a handle is always held. `openSideMenu` on an open
  menu then never re-animates (`HandleNeverCleared`, `OpenSideMenu`).
- A swipe released toward the side the menu is already on calls
  `closeSideMenuAnimate`/`openSideMenuAnimate` directly. No cancel of the held
  animator happens, and the listener hears `onSideMenuClosed` or
  `onSideMenuOpened` again (`SettleSwipe`, `SwipeReleaseWhileClosedReannounces`,
  `SwipeReleaseWhileOpenReannounces`).
- `mTouchFlingActive` is reset only by the down branch of
  `onInterceptTouchEvent`. A fling's decelerate curve therefore also applies to
  later programmatic opens (`FlingCurvePersists`).
- The down branch of `onTouchEvent` records position and time but leaves the
  swipe and fling flags as they were (`OnTouchEvent`).
- The compensation in `setLayoutParams` is applied to the object handed in, so
  handing the same object twice shifts the margins twice
  (`CompensationRepeats`).

**What the framework supplies.** Everything that comes from the framework or
the device is an input:
- the view width;
- the content pane's screen rectangle;
- the clock, as the event's time;
- the pixel thresholds derived from density-independent sizes;
- the answers of the `super` implementations;
- whether each pane is an update listener;
- the card's paddings.

## Model

| member | source | states |
|---|---|---|
| JavaNumerics.Trunc | slidesidemenu-library/src/main/java/com/lemonade/widgets/slidesidemenu/SlideSideMenuTransitionLayout.java:133 | the `(int)` cast of a non-negative value is the largest integer not above it, and of a negative value the smallest integer not below it |
| JavaNumerics.Round | slidesidemenu-library/src/main/java/com/lemonade/widgets/slidesidemenu/SlideSideMenuContentCardView.java:63 | `Math.round` gives an integer within one half of its argument, halves rounded up |
| JavaNumerics.Abs | slidesidemenu-library/src/main/java/com/lemonade/widgets/slidesidemenu/SlideSideMenuTransitionLayout.java:395 | `Math.abs` is non-negative and equals the argument or its negation |
| SideMenuModel.Clamp | slidesidemenu-library/src/main/java/com/lemonade/widgets/slidesidemenu/SlideSideMenuTransitionLayout.java:330-334 | the factor is clamped into [0,1]: unchanged inside, 0 below, 1 above |
| SideMenuModel.FactorForTouch | slidesidemenu-library/src/main/java/com/lemonade/widgets/slidesidemenu/SlideSideMenuTransitionLayout.java:507-512 | the factor for a touch at x is the current endpoint plus 1.2 times the rightward drag as a fraction of the width, whether open or closed |
| SideMenuModel.InContent | slidesidemenu-library/src/main/java/com/lemonade/widgets/slidesidemenu/SlideSideMenuTransitionLayout.java:514-516 | the raw coordinates are narrowed toward zero and the narrowed point is tested inclusively against the content rectangle |
| SideMenuModel.IsFling | slidesidemenu-library/src/main/java/com/lemonade/widgets/slidesidemenu/SlideSideMenuTransitionLayout.java:450-466 | a fling is a release within the fling time limit, past the minimum distance on the side that changes the state (to the left when open, to the right when closed) |
| SideMenuModel.IsTap | slidesidemenu-library/src/main/java/com/lemonade/widgets/slidesidemenu/SlideSideMenuTransitionLayout.java:490-492 | a tap is a release within the tap time limit, strictly inside the tap distance of the down point on both axes |
| SideMenuModel.ViewContains | slidesidemenu-library/src/main/java/com/lemonade/widgets/slidesidemenu/SlideSideMenuTransitionLayout.java:518-531 | a point is inside the view exactly when it lies within its bounds, inclusive on all four sides |
| SideMenuModel.ComputeGeometry | slidesidemenu-library/src/main/java/com/lemonade/widgets/slidesidemenu/SlideSideMenuTransitionLayout.java:125-141 | a fixed peek width sets the translation to width minus that width; the content scale difference is 1 minus the peek size, the menu's is its start size minus 1 |
| SideMenuModel.PercentTranslationBounds | slidesidemenu-library/src/main/java/com/lemonade/widgets/slidesidemenu/SlideSideMenuTransitionLayout.java:133 | without a fixed width and with a percentage in [0,1], the translation is the uncovered share of the width narrowed toward zero, within [0, width] |
| SideMenuModel.Inflated | slidesidemenu-library/src/main/java/com/lemonade/widgets/slidesidemenu/SlideSideMenuTransitionLayout.java:144-161 | a new layout with both children is closed, unlocked, at factor 0 with no animator and the default settings, its menu hidden and the factor 0 broadcast once; it keeps the given thresholds and pane listener flags, has no state listener, width 0 and an empty touch session |
| SideMenuModel.CalculateValues | slidesidemenu-library/src/main/java/com/lemonade/widgets/slidesidemenu/SlideSideMenuTransitionLayout.java:125-141 | only the geometry cache changes, to the geometry of the width and the current settings |
| SideMenuModel.OnSizeChanged | slidesidemenu-library/src/main/java/com/lemonade/widgets/slidesidemenu/SlideSideMenuTransitionLayout.java:186-190 | the new width is taken and the cache recomputed for it; nothing else changes |
| SideMenuModel.SetContentPeekDistanceWidth | slidesidemenu-library/src/main/java/com/lemonade/widgets/slidesidemenu/SlideSideMenuTransitionLayout.java:196-199 | the fixed peek width (or its absence) is stored and the cache recomputed for the current width |
| SideMenuModel.SetContentPeekDistancePercent | slidesidemenu-library/src/main/java/com/lemonade/widgets/slidesidemenu/SlideSideMenuTransitionLayout.java:201-205 | the fixed width is cleared, the percentage stored and the cache recomputed |
| SideMenuModel.SetContentPeekSizePercent | slidesidemenu-library/src/main/java/com/lemonade/widgets/slidesidemenu/SlideSideMenuTransitionLayout.java:207-210 | the peek size is stored and the whole cache is recomputed for the current width, so the content scale difference becomes 1 minus it; nothing else changes |
| SideMenuModel.SetMenuSizePercent | slidesidemenu-library/src/main/java/com/lemonade/widgets/slidesidemenu/SlideSideMenuTransitionLayout.java:212-215 | the menu start size is stored and the whole cache is recomputed for the current width, so the menu scale difference becomes it minus 1; nothing else changes |
| SideMenuModel.SetAnimationDuration | slidesidemenu-library/src/main/java/com/lemonade/widgets/slidesidemenu/SlideSideMenuTransitionLayout.java:243-245 | only the duration changes, and nothing is recomputed |
| SideMenuModel.SyncContentContainerState | slidesidemenu-library/src/main/java/com/lemonade/widgets/slidesidemenu/SlideSideMenuTransitionLayout.java:171-184 | the menu is shown exactly when the factor is not 0, and the factor is broadcast to the content, then to the menu, when they listen |
| SideMenuModel.Pose | slidesidemenu-library/src/main/java/com/lemonade/widgets/slidesidemenu/SlideSideMenuTransitionLayout.java:349-358 | content translation is the cached translation times the factor, content scale 1 minus its difference times the factor, menu scale 1 plus its difference times the remainder |
| SideMenuModel.SetSideMenuAnimation | slidesidemenu-library/src/main/java/com/lemonade/widgets/slidesidemenu/SlideSideMenuTransitionLayout.java:329-361 | the stored factor is the clamped input; the panes take the pose for it; the first reveal is announced exactly when leaving 0 with a listener, then the factor is broadcast; nothing else changes |
| SideMenuModel.OpeningAnimation | slidesidemenu-library/src/main/java/com/lemonade/widgets/slidesidemenu/SlideSideMenuTransitionLayout.java:280-281 | the opening animator runs from the current factor to 1, decelerating exactly when the touch was a fling |
| SideMenuModel.ClosingAnimation | slidesidemenu-library/src/main/java/com/lemonade/widgets/slidesidemenu/SlideSideMenuTransitionLayout.java:315-316 | the closing animator runs from the current factor to 0, decelerating exactly when the touch was a fling |
| SideMenuModel.AnimationDurationBounds | slidesidemenu-library/src/main/java/com/lemonade/widgets/slidesidemenu/SlideSideMenuTransitionLayout.java:282 | from a factor in [0,1], the opening time is the remaining share of the duration narrowed toward zero, the closing time the covered share, both within [0, duration], together within 2 ms of it |
| SideMenuModel.OpenSideMenuAnimate | slidesidemenu-library/src/main/java/com/lemonade/widgets/slidesidemenu/SlideSideMenuTransitionLayout.java:279-288 | the handle is replaced by a new opening animator without cancelling the old one, the start is recorded, then onSideMenuOpened when a listener is set |
| SideMenuModel.CloseSideMenuAnimate | slidesidemenu-library/src/main/java/com/lemonade/widgets/slidesidemenu/SlideSideMenuTransitionLayout.java:314-323 | the handle is replaced by a new closing animator without cancelling the old one, the start is recorded, then onSideMenuClosed when a listener is set |
| SideMenuModel.CancelAnimation | slidesidemenu-library/src/main/java/com/lemonade/widgets/slidesidemenu/SlideSideMenuTransitionLayout.java:269-272 | a held animator is cancelled and the handle dropped; nothing else changes |
| SideMenuModel.OpenSideMenu | slidesidemenu-library/src/main/java/com/lemonade/widgets/slidesidemenu/SlideSideMenuTransitionLayout.java:255-277 | returns true exactly when closed and unlocked, and then cancels, opens and starts toward 1; open: re-animates only short of 1 with no handle; locked and closed: no change |
| SideMenuModel.CloseSideMenu | slidesidemenu-library/src/main/java/com/lemonade/widgets/slidesidemenu/SlideSideMenuTransitionLayout.java:290-312 | the mirror image toward 0: true exactly when open and unlocked; closed: re-animates only above 0 with no handle; locked and open: no change |
| SideMenuModel.Toggle | slidesidemenu-library/src/main/java/com/lemonade/widgets/slidesidemenu/SlideSideMenuTransitionLayout.java:247-253 | an open menu gets closeSideMenu and a closed one openSideMenu; so unlocked the open state always flips, locked it never changes, and the factor and width are untouched |
| SideMenuModel.ClassifyRelease | slidesidemenu-library/src/main/java/com/lemonade/widgets/slidesidemenu/SlideSideMenuTransitionLayout.java:449-499 | an up is a fling exactly when fast and far enough toward the other side; otherwise a swipe exactly when one is active, toward open exactly when its factor is at least 0.5; otherwise a closing tap exactly when short, near, open and on the content |
| SideMenuModel.SettleSwipe | slidesidemenu-library/src/main/java/com/lemonade/widgets/slidesidemenu/SlideSideMenuTransitionLayout.java:471-488 | the menu ends on the chosen side unless locked; unlocked, the held animator is the one just started toward that side; leaving its side it runs closeSideMenu/openSideMenu (a cancel, the animator, one listener call); staying on its side it is exactly openSideMenuAnimate/closeSideMenuAnimate, locked or not: a new animator with no cancel, the listener called again and nothing else changed; factor, lock and width are untouched |
| SideMenuModel.OnRelease | slidesidemenu-library/src/main/java/com/lemonade/widgets/slidesidemenu/SlideSideMenuTransitionLayout.java:446-500 | a fling marks the flag and runs closeSideMenu when open, openSideMenu when closed, so unlocked it flips the open state with a decelerating animator; an active swipe settles toward its side; a closing tap closes; anything else changes nothing |
| SideMenuModel.TrackSwipe | slidesidemenu-library/src/main/java/com/lemonade/widgets/slidesidemenu/SlideSideMenuTransitionLayout.java:426-437 | before activation, an invalid swipe is left alone, a vertical drift past the limit invalidates it, a drift within the limit keeps it valid, and the swipe is active afterwards exactly when it was already or the horizontal drift passed the minimum |
| SideMenuModel.TouchMove | slidesidemenu-library/src/main/java/com/lemonade/widgets/slidesidemenu/SlideSideMenuTransitionLayout.java:425-444 | the new session is the one TrackSwipe gives; while the swipe is active the factor for the touch is applied; otherwise only the session changes |
| SideMenuModel.OnTouchEvent | slidesidemenu-library/src/main/java/com/lemonade/widgets/slidesidemenu/SlideSideMenuTransitionLayout.java:408-505 | locked, defers to the framework unchanged; unlocked, always returns true; the down branch records only position and time |
| SideMenuModel.OnInterceptTouchEvent | slidesidemenu-library/src/main/java/com/lemonade/widgets/slidesidemenu/SlideSideMenuTransitionLayout.java:364-405 | a down starts a session, valid exactly when open on the content or within the touch area, intercepting when open on the content; a move on a valid swipe either clears only the valid flag, or intercepts once past the minimum and changes nothing; only the session changes |
| SideMenuModel.SetSideMenuAnimationKeepsValid | slidesidemenu-library/src/main/java/com/lemonade/widgets/slidesidemenu/SlideSideMenuTransitionLayout.java:329-361 | setting the factor keeps the layout valid |
| SideMenuModel.OpenSideMenuAnimateKeepsValid | slidesidemenu-library/src/main/java/com/lemonade/widgets/slidesidemenu/SlideSideMenuTransitionLayout.java:279-288 | a started opening animator is well formed, so the layout stays valid |
| SideMenuModel.CloseSideMenuAnimateKeepsValid | slidesidemenu-library/src/main/java/com/lemonade/widgets/slidesidemenu/SlideSideMenuTransitionLayout.java:314-323 | a started closing animator is well formed, so the layout stays valid |
| SideMenuModel.OpenSideMenuKeepsValid | slidesidemenu-library/src/main/java/com/lemonade/widgets/slidesidemenu/SlideSideMenuTransitionLayout.java:255-277 | openSideMenu keeps the layout valid |
| SideMenuModel.CloseSideMenuKeepsValid | slidesidemenu-library/src/main/java/com/lemonade/widgets/slidesidemenu/SlideSideMenuTransitionLayout.java:290-312 | closeSideMenu keeps the layout valid |
| SideMenuModel.SettleSwipeKeepsValid | slidesidemenu-library/src/main/java/com/lemonade/widgets/slidesidemenu/SlideSideMenuTransitionLayout.java:471-488 | settling a swipe keeps the layout valid |
| SideMenuModel.OnReleaseKeepsValid | slidesidemenu-library/src/main/java/com/lemonade/widgets/slidesidemenu/SlideSideMenuTransitionLayout.java:446-500 | the up branch keeps the layout valid |
| SideMenuModel.TouchMoveKeepsValid | slidesidemenu-library/src/main/java/com/lemonade/widgets/slidesidemenu/SlideSideMenuTransitionLayout.java:425-444 | the move branch keeps the layout valid |
| SideMenuModel.OnTouchEventKeepsValid | slidesidemenu-library/src/main/java/com/lemonade/widgets/slidesidemenu/SlideSideMenuTransitionLayout.java:408-505 | onTouchEvent keeps the layout valid |
| SideMenuModel.StepKeepsValid | slidesidemenu-library/src/main/java/com/lemonade/widgets/slidesidemenu/SlideSideMenuTransitionLayout.java:167-505 | every public entry point, animator tick and touch event keeps the layout valid |
| SideMenuModel.RunKeepsValid | slidesidemenu-library/src/main/java/com/lemonade/widgets/slidesidemenu/SlideSideMenuTransitionLayout.java:167-505 | from a valid layout (one inflated with both panes and laid out, see LaidOutIsValid), after any sequence of public calls other than setMenuLayout and setContentLayout, ticks and touches the factor is in [0,1], the menu is hidden exactly at 0, the cache is current and every animator and broadcast recorded is well formed |
| SideMenuModel.LaidOutIsValid | slidesidemenu-library/src/main/java/com/lemonade/widgets/slidesidemenu/SlideSideMenuTransitionLayout.java:144-190 | construction with two children followed by a first non-zero size gives a valid layout |
| SideMenuModel.InvalidSwipeIgnoresMoves | slidesidemenu-library/src/main/java/com/lemonade/widgets/slidesidemenu/SlideSideMenuTransitionLayout.java:390-444 | while a swipe is invalid and inactive, any sequence of moves, intercepted or handled, changes nothing |
| SideMenuModel.InvalidatingMoveEndsSwipe | slidesidemenu-library/src/main/java/com/lemonade/widgets/slidesidemenu/SlideSideMenuTransitionLayout.java:431-433 | a move past the vertical limit before activation invalidates the swipe for every later move of the sequence |
| SideMenuModel.FactorForTouchExamples | slidesidemenu-library/src/main/java/com/lemonade/widgets/slidesidemenu/SlideSideMenuTransitionLayout.java:507-512 | closed, down at 100, touch at 160, width 300 gives 0.24; open, down at 100, touch at 40 gives 0.76 |
| SideMenuModel.FactorForTouchSpan | slidesidemenu-library/src/main/java/com/lemonade/widgets/slidesidemenu/SlideSideMenuTransitionLayout.java:507-512 | no drag gives the current endpoint, and a drag of width / 1.2 toward the other side reaches the other endpoint exactly |
| SideMenuModel.PoseAtEndpoints | slidesidemenu-library/src/main/java/com/lemonade/widgets/slidesidemenu/SlideSideMenuTransitionLayout.java:343-358 | at 0 the content is at rest, the menu at its start scale and hidden; at 1 the content is at its peek size, offset by width minus a fixed peek width, and the menu at scale 1 |
| SideMenuModel.FirstRevealExactlyWhenLeavingZero | slidesidemenu-library/src/main/java/com/lemonade/widgets/slidesidemenu/SlideSideMenuTransitionLayout.java:336-341 | a call of setSideMenuAnimation announces the first reveal exactly when a listener is set, the old factor is 0 and the clamped new one positive |
| SideMenuModel.FirstRevealOncePerDeparture | slidesidemenu-library/src/main/java/com/lemonade/widgets/slidesidemenu/SlideSideMenuTransitionLayout.java:336-343 | after a positive factor, the next update never announces the first reveal |
| SideMenuModel.LockedRefusesChange | slidesidemenu-library/src/main/java/com/lemonade/widgets/slidesidemenu/SlideSideMenuTransitionLayout.java:255-312 | locked, openSideMenu on a closed menu, closeSideMenu on an open one and toggle return false and change nothing |
| SideMenuModel.HandleNeverCleared | slidesidemenu-library/src/main/java/com/lemonade/widgets/slidesidemenu/SlideSideMenuTransitionLayout.java:269-280 | once an animator handle is held, it is held after any sequence of calls, ticks and touches |
| SideMenuModel.TapOnContentClosesOnce | slidesidemenu-library/src/main/java/com/lemonade/widgets/slidesidemenu/SlideSideMenuTransitionLayout.java:490-499 | a short tap on the content of an open, unlocked menu closes it, cancelling the held animator, starting one closing animator and announcing onSideMenuClosed once |
| SideMenuModel.FlingCurvePersists | slidesidemenu-library/src/main/java/com/lemonade/widgets/slidesidemenu/SlideSideMenuTransitionLayout.java:450-466 | after a fling closes the menu, a later programmatic openSideMenu still decelerates |
| SideMenuModel.SwipeReleaseWhileOpenReannounces | slidesidemenu-library/src/main/java/com/lemonade/widgets/slidesidemenu/SlideSideMenuTransitionLayout.java:471-486 | a swipe released at one half or more on an open menu starts a new opening animator with no cancel and announces onSideMenuOpened again |
| SideMenuModel.FlingClosesOnce | slidesidemenu-library/src/main/java/com/lemonade/widgets/slidesidemenu/SlideSideMenuTransitionLayout.java:450-458 | a fling on an open, unlocked menu gives one cancel of the held animator, one decelerating closing animator and one onSideMenuClosed |
| SideMenuModel.FlingOpensOnce | slidesidemenu-library/src/main/java/com/lemonade/widgets/slidesidemenu/SlideSideMenuTransitionLayout.java:450-466 | a fling on a closed, unlocked menu gives one cancel of the held animator, one decelerating opening animator and one onSideMenuOpened |
| SideMenuModel.SwipeReleaseWhileClosedReannounces | slidesidemenu-library/src/main/java/com/lemonade/widgets/slidesidemenu/SlideSideMenuTransitionLayout.java:473-478 | a swipe released below one half on a closed menu starts a new closing animator with no cancel and announces onSideMenuClosed again |
| SideMenuLayout.TransitionLayout.constructor | slidesidemenu-library/src/main/java/com/lemonade/widgets/slidesidemenu/SlideSideMenuTransitionLayout.java:102-161 | the fields after construction, init() and onFinishInflate with two children are those of the model's new layout |
| SideMenuLayout.TransitionLayout.ContentTranslationFor | slidesidemenu-library/src/main/java/com/lemonade/widgets/slidesidemenu/SlideSideMenuTransitionLayout.java:127-134 | the translation statement computes the model's translation for the width and settings |
| SideMenuLayout.TransitionLayout.CalculateValues | slidesidemenu-library/src/main/java/com/lemonade/widgets/slidesidemenu/SlideSideMenuTransitionLayout.java:125-141 | the fields move as the model's calculateValues |
| SideMenuLayout.TransitionLayout.OnSizeChanged | slidesidemenu-library/src/main/java/com/lemonade/widgets/slidesidemenu/SlideSideMenuTransitionLayout.java:186-190 | the fields move as the model's onSizeChanged |
| SideMenuLayout.TransitionLayout.SetLocked | slidesidemenu-library/src/main/java/com/lemonade/widgets/slidesidemenu/SlideSideMenuTransitionLayout.java:167-169 | only the lock changes |
| SideMenuLayout.TransitionLayout.SetContentPeekDistanceWidth | slidesidemenu-library/src/main/java/com/lemonade/widgets/slidesidemenu/SlideSideMenuTransitionLayout.java:196-199 | the fields move as the model's setter |
| SideMenuLayout.TransitionLayout.SetContentPeekDistancePercent | slidesidemenu-library/src/main/java/com/lemonade/widgets/slidesidemenu/SlideSideMenuTransitionLayout.java:201-205 | the fields move as the model's setter |
| SideMenuLayout.TransitionLayout.SetContentPeekSizePercent | slidesidemenu-library/src/main/java/com/lemonade/widgets/slidesidemenu/SlideSideMenuTransitionLayout.java:207-210 | the fields move as the model's setter |
| SideMenuLayout.TransitionLayout.SetMenuSizePercent | slidesidemenu-library/src/main/java/com/lemonade/widgets/slidesidemenu/SlideSideMenuTransitionLayout.java:212-215 | the fields move as the model's setter |
| SideMenuLayout.TransitionLayout.SetSideMenuStateListener | slidesidemenu-library/src/main/java/com/lemonade/widgets/slidesidemenu/SlideSideMenuTransitionLayout.java:239-241 | only the presence of a listener changes |
| SideMenuLayout.TransitionLayout.SetAnimationDuration | slidesidemenu-library/src/main/java/com/lemonade/widgets/slidesidemenu/SlideSideMenuTransitionLayout.java:243-245 | the fields move as the model's setter |
| SideMenuLayout.TransitionLayout.SyncContentContainerState | slidesidemenu-library/src/main/java/com/lemonade/widgets/slidesidemenu/SlideSideMenuTransitionLayout.java:171-184 | the fields move as the model's syncContentContainerState |
| SideMenuLayout.TransitionLayout.ClampFactor | slidesidemenu-library/src/main/java/com/lemonade/widgets/slidesidemenu/SlideSideMenuTransitionLayout.java:330-334 | the reassignment of the parameter computes the model's clamp |
| SideMenuLayout.TransitionLayout.ApplyFactor | slidesidemenu-library/src/main/java/com/lemonade/widgets/slidesidemenu/SlideSideMenuTransitionLayout.java:343-358 | the factor is stored and the panes take the model's pose for it, the menu visibility still as before |
| SideMenuLayout.TransitionLayout.SetSideMenuAnimation | slidesidemenu-library/src/main/java/com/lemonade/widgets/slidesidemenu/SlideSideMenuTransitionLayout.java:329-361 | the fields move as the model's setSideMenuAnimation |
| SideMenuLayout.TransitionLayout.OpenSideMenuAnimate | slidesidemenu-library/src/main/java/com/lemonade/widgets/slidesidemenu/SlideSideMenuTransitionLayout.java:279-288 | the fields move as the model's openSideMenuAnimate |
| SideMenuLayout.TransitionLayout.CloseSideMenuAnimate | slidesidemenu-library/src/main/java/com/lemonade/widgets/slidesidemenu/SlideSideMenuTransitionLayout.java:314-323 | the fields move as the model's closeSideMenuAnimate |
| SideMenuLayout.TransitionLayout.CancelAnimation | slidesidemenu-library/src/main/java/com/lemonade/widgets/slidesidemenu/SlideSideMenuTransitionLayout.java:269-272 | the fields move as the model's cancellation |
| SideMenuLayout.TransitionLayout.OpenSideMenu | slidesidemenu-library/src/main/java/com/lemonade/widgets/slidesidemenu/SlideSideMenuTransitionLayout.java:255-277 | fields and result are the model's openSideMenu |
| SideMenuLayout.TransitionLayout.CloseSideMenu | slidesidemenu-library/src/main/java/com/lemonade/widgets/slidesidemenu/SlideSideMenuTransitionLayout.java:290-312 | fields and result are the model's closeSideMenu |
| SideMenuLayout.TransitionLayout.Toggle | slidesidemenu-library/src/main/java/com/lemonade/widgets/slidesidemenu/SlideSideMenuTransitionLayout.java:247-253 | the fields move as the model's toggle |
| SideMenuLayout.TransitionLayout.GetFactorForTouch | slidesidemenu-library/src/main/java/com/lemonade/widgets/slidesidemenu/SlideSideMenuTransitionLayout.java:507-512 | the result is the current endpoint plus 1.2 times the rightward drag as a fraction of the width |
| SideMenuLayout.TransitionLayout.InContentContainer | slidesidemenu-library/src/main/java/com/lemonade/widgets/slidesidemenu/SlideSideMenuTransitionLayout.java:514-531 | the result is the model's inclusive containment test of the narrowed coordinates |
| SideMenuLayout.TransitionLayout.RecordTouchDown | slidesidemenu-library/src/main/java/com/lemonade/widgets/slidesidemenu/SlideSideMenuTransitionLayout.java:381-383 | only the down position and time change |
| SideMenuLayout.TransitionLayout.InterceptDown | slidesidemenu-library/src/main/java/com/lemonade/widgets/slidesidemenu/SlideSideMenuTransitionLayout.java:380-389 | the session is replaced by a new one, valid exactly when open on the content or within the touch area, and the result is open on the content |
| SideMenuLayout.TransitionLayout.InterceptMove | slidesidemenu-library/src/main/java/com/lemonade/widgets/slidesidemenu/SlideSideMenuTransitionLayout.java:390-401 | a valid swipe is invalidated by a vertical drift past the limit, otherwise intercepted once past the horizontal minimum; an invalid one changes nothing |
| SideMenuLayout.TransitionLayout.OnInterceptTouchEvent | slidesidemenu-library/src/main/java/com/lemonade/widgets/slidesidemenu/SlideSideMenuTransitionLayout.java:364-405 | fields and result are the model's onInterceptTouchEvent |
| SideMenuLayout.TransitionLayout.TouchMove | slidesidemenu-library/src/main/java/com/lemonade/widgets/slidesidemenu/SlideSideMenuTransitionLayout.java:425-444 | the fields move as the model's move branch |
| SideMenuLayout.TransitionLayout.ReleaseSwipe | slidesidemenu-library/src/main/java/com/lemonade/widgets/slidesidemenu/SlideSideMenuTransitionLayout.java:471-488 | the fields move as the model's swipe settlement toward the side of the release factor |
| SideMenuLayout.TransitionLayout.TouchUp | slidesidemenu-library/src/main/java/com/lemonade/widgets/slidesidemenu/SlideSideMenuTransitionLayout.java:446-500 | the fields move as the model's up branch |
| SideMenuLayout.TransitionLayout.OnTouchEvent | slidesidemenu-library/src/main/java/com/lemonade/widgets/slidesidemenu/SlideSideMenuTransitionLayout.java:408-505 | fields and result are the model's onTouchEvent |
| ContentCard.Scaled | slidesidemenu-library/src/main/java/com/lemonade/widgets/slidesidemenu/SlideSideMenuContentCardView.java:62-67 | the pushed value is within one half of maximum times factor, 0 at factor 0 and the maximum at factor 1 |
| ContentCard.ScaledWithin | slidesidemenu-library/src/main/java/com/lemonade/widgets/slidesidemenu/SlideSideMenuContentCardView.java:62-67 | for a factor in [0,1] elevation and radius stay within [0, maximum] |
| ContentCard.ScaledMonotone | slidesidemenu-library/src/main/java/com/lemonade/widgets/slidesidemenu/SlideSideMenuContentCardView.java:62-67 | a larger factor never gives a smaller elevation or radius |
| ContentCard.BroadcastStaysWithinMaxima | slidesidemenu-library/src/main/java/com/lemonade/widgets/slidesidemenu/SlideSideMenuContentCardView.java:56-67 | every factor a valid layout has broadcast to the content gives the card an elevation and radius within their maxima |
| ContentCard.DpToPixels | slidesidemenu-library/src/main/java/com/lemonade/widgets/slidesidemenu/Utils.java:12-15 | the pixels for a non-negative amount at a non-negative density are the scaled amount rounded down |
| ContentCard.ShadowPadding | slidesidemenu-library/src/main/java/com/lemonade/widgets/slidesidemenu/SlideSideMenuContentCardView.java:76-79 | the shadow on each side plus the content padding there is the card's padding there |
| ContentCard.Compensated | slidesidemenu-library/src/main/java/com/lemonade/widgets/slidesidemenu/SlideSideMenuContentCardView.java:74-80 | each compensated margin plus the shadow on that side is the margin asked for |
| ContentCard.CompensationRepeats | slidesidemenu-library/src/main/java/com/lemonade/widgets/slidesidemenu/SlideSideMenuContentCardView.java:70-83 | a second compensation of the same parameters leaves them unchanged exactly when the card casts no shadow |
| ContentCard.ContentCardView.constructor | slidesidemenu-library/src/main/java/com/lemonade/widgets/slidesidemenu/SlideSideMenuContentCardView.java:22-44 | the maxima are the 7 dp and 4 dp defaults converted for the density, the factor is 0, corner overlap prevention is off and compat padding on |
| ContentCard.ContentCardView.ApplyFactor | slidesidemenu-library/src/main/java/com/lemonade/widgets/slidesidemenu/SlideSideMenuContentCardView.java:62-68 | elevation and radius are the rounded products of the maxima and the stored factor; nothing else changes |
| ContentCard.ContentCardView.SetMaxElevation | slidesidemenu-library/src/main/java/com/lemonade/widgets/slidesidemenu/SlideSideMenuContentCardView.java:46-49 | only the elevation maximum is replaced, the factor kept, and both values re-applied |
| ContentCard.ContentCardView.SetMaxRadius | slidesidemenu-library/src/main/java/com/lemonade/widgets/slidesidemenu/SlideSideMenuContentCardView.java:51-54 | only the radius maximum is replaced, the factor kept, and both values re-applied |
| ContentCard.ContentCardView.OnSlideSideMenuFactorUpdate | slidesidemenu-library/src/main/java/com/lemonade/widgets/slidesidemenu/SlideSideMenuContentCardView.java:56-60 | the factor is stored and elevation and radius follow it |
| ContentCard.ContentCardView.SetLayoutParams | slidesidemenu-library/src/main/java/com/lemonade/widgets/slidesidemenu/SlideSideMenuContentCardView.java:70-83 | margin parameters have each margin decreased by the shadow padding on its side; other parameters are stored unchanged |
| ContentCard.FreshCardStaysFlat | slidesidemenu-library/src/main/java/com/lemonade/widgets/slidesidemenu/SlideSideMenuContentCardView.java:18-49 | before any factor update, changing both maxima gives elevation 0 and radius 0, with the new maxima stored |

## Left out

- Floating point: factors, coordinates and scales are exact reals. Float rounding of the products and of 1.2 is not modelled.
- Integer width: Java `int`/`long` overflow is not modelled. This covers the narrowing of out-of-range floats, the timestamp difference and margin subtraction.
- SideMenuModel.FactorForTouch, SideMenuModel.ClassifyRelease, SideMenuModel.OnRelease, SideMenuModel.TouchMove, SideMenuModel.OnTouchEvent: each requires a positive width. A zero-width division gives an infinity or NaN in Java, which exact reals cannot express.
- SideMenuLayout.TransitionLayout.GetFactorForTouch, SideMenuLayout.TransitionLayout.TouchMove, SideMenuLayout.TransitionLayout.ReleaseSwipe, SideMenuLayout.TransitionLayout.TouchUp, SideMenuLayout.TransitionLayout.OnTouchEvent: each requires a positive width, for the same reason.
- SideMenuModel.RunKeepsValid: sequences exclude a size change to width 0 and a negative duration. Android's animator rejects a negative duration with an exception, which is not modelled. The setter itself accepts any value.
- Animators: the interpolation and the per-frame ticks of ObjectAnimator are not modelled. A started animator is recorded with its endpoints, duration and curve, and a tick is an ordinary call of setSideMenuAnimation. The animator's end is not observed: `mAnimation` is set to null only by openSideMenu and closeSideMenu, right after they cancel it, and nothing clears it when an animator finishes.
- View plumbing: the child lookup of onFinishInflate is left out. The model is for a layout inflated with both panes, whose syncContentContainerState hides the menu at factor 0. With any child count other than 0 and 2 it throws, which is not modelled. Null panes are not modelled, including the null check of isViewContains.
- ContentCard.DpToPixels: requires a non-negative amount and density. The two amounts converted are the constants 7 and 4 and a display density is positive, so no caller is excluded.
- The Build.VERSION pivot call: setPivotX(0) has no effect on the modelled state.
- setMenuLayout and setContentLayout: they add and remove child views, which is view plumbing. A layout inflated with no children expects its panes to be added this way. On that path syncContentContainerState does not run when the panes arrive, so a new menu pane stays visible at factor 0 until the first factor update. That state is outside `Valid`, and RunKeepsValid and the rest of the model cover only layouts inflated with both panes.
- setContentPeekDistanceWidthResource: it looks up a resource and then calls the modelled setContentPeekDistanceWidth.
- Utils.convertDPtoPixels for the layout's touch thresholds: the thresholds are constructor parameters in pixels. The card's maxima use the conversion (`ContentCard.DpToPixels`), with the display density as a parameter.
- The framework supplies the clock, the content rectangle, the width and the `super` answers. All are parameters.
- Touch actions other than down, move and up (cancel, pointer actions) fall through the switch, as one `OtherAction`.
- The CardView recomputes its padding from its elevation and radius. Here the padding and content padding are fixed at construction.
- The sample activity has no logic of its own.
