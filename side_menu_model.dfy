/**
 * The side-menu controller of SlideSideMenuTransitionLayout as a value: every
 * field of the Java class that changes is a component of `Layout` (the tap and
 * fling duration limits, never reassigned, are constants here; the two pane
 * references and the scratch position array are not kept, the panes being
 * represented by what is pushed into them), and every method of the class is
 * a function from the old `Layout` to the new one (with the method's boolean
 * result where it has one). The Android side effects are
 * recorded in `trace`: animators started and cancelled, calls of the state
 * listener, and factor broadcasts to the panes that are update listeners.
 *
 * Nothing here interpolates an animation: an animator is recorded as it is
 * started, and its ticks are ordinary calls of SetSideMenuAnimation.
 */
module SideMenuModel {
  import opened JavaNumerics

  datatype Option<T> = None | Some(value: T)

  // Constants of the Java class
  const SwipeDistanceFactor: real := 1.2
  const DefaultContentPeekDistancePercent: real := 0.4
  const DefaultContentPeekSizePercent: real := 0.85
  const DefaultMenuStartSizePercent: real := 1.1
  const DefaultAnimationDuration: real := 300.0
  const TouchTapDurationMax: int := 150
  const TouchFlingMaxDuration: int := 200

  /** The interpolator an animator is given */
  datatype Curve = Decelerate | AccelerateDecelerate

  /** An ObjectAnimator of the slide factor, as it was started */
  datatype Animation = Animation(from: real, to: real, duration: int, curve: Curve)

  /** One observable side effect, in the order the Java code performs them */
  datatype Effect =
    | AnimationStarted(animation: Animation)
    | AnimationCancelled(animation: Animation)
    | SideMenuOpened
    | SideMenuClosed
    | SideMenuFirstReveal
    | ContentFactorUpdate(factor: real)
    | MenuFactorUpdate(factor: real)

  /** A view's on-screen bounds: getLocationOnScreen plus getWidth/getHeight */
  datatype Rect = Rect(left: int, top: int, width: int, height: int)

  /** The masked action of a MotionEvent; every other action falls through the switch */
  datatype Action = Down | Move | Up | OtherAction

  /** A MotionEvent's action and raw screen coordinates, with the wall-clock time it is handled at */
  datatype TouchEvent = TouchEvent(action: Action, rawX: real, rawY: real, time: int)

  /** The pixel thresholds init() derives from density-independent constants */
  datatype Thresholds = Thresholds(
    tapDistanceMax: int,
    swipeDistanceMin: int,
    swipeDistanceInvalidMax: int,
    touchAreaSize: int,
    flingMinDistance: int)

  /** Animation settings; a fixed peek width, when present, takes precedence over the percentage */
  datatype Config = Config(
    animationDuration: real,
    contentPeekWidth: Option<int>,
    contentPeekPercent: real,
    contentPeekSizePercent: real,
    menuStartSizePercent: real)

  const DefaultConfig: Config := Config(
    DefaultAnimationDuration, None, DefaultContentPeekDistancePercent,
    DefaultContentPeekSizePercent, DefaultMenuStartSizePercent)

  /** The values calculateValues caches for the animation */
  datatype Geometry = Geometry(translationX: int, contentScaleDiff: real, menuScaleDiff: real)

  /** What the layout last pushed into its panes */
  datatype Transforms = Transforms(
    contentTranslationX: real,
    contentScale: real,
    menuScale: real,
    menuVisible: bool)

  /** The touch-session fields */
  datatype Session = Session(
    downX: real,
    downY: real,
    downTime: int,
    swipeValid: bool,
    swipeActive: bool,
    flingActive: bool)

  datatype Layout = Layout(
    thresholds: Thresholds,
    config: Config,
    width: int,
    geometry: Geometry,
    locked: bool,
    hasStateListener: bool,
    contentListens: bool,
    menuListens: bool,
    open: bool,
    factor: real,
    animation: Option<Animation>,
    session: Session,
    view: Transforms,
    trace: seq<Effect>)

  /** A new layout state together with the boolean the Java method returns */
  datatype Outcome = Outcome(layout: Layout, result: bool)

  // ---------------------------------------------------------------------
  // Invariant

  predicate AnimationOk(a: Animation)
  {
    0.0 <= a.from <= 1.0 && (a.to == 0.0 || a.to == 1.0) && 0 <= a.duration
  }

  predicate EffectOk(e: Effect)
  {
    match e
    case AnimationStarted(a) => AnimationOk(a)
    case AnimationCancelled(a) => AnimationOk(a)
    case ContentFactorUpdate(f) => 0.0 <= f <= 1.0
    case MenuFactorUpdate(f) => 0.0 <= f <= 1.0
    case _ => true
  }

  predicate EffectsOk(es: seq<Effect>)
  {
    forall i :: 0 <= i < |es| ==> EffectOk(es[i])
  }

  /**
   * A laid-out layout: the geometry cache agrees with the width and the
   * configuration, the factor is in [0,1], the menu is shown exactly when the
   * factor is positive, every animator runs from a factor in [0,1] to an
   * endpoint for a non-negative time, and every broadcast factor is in [0,1].
   */
  ghost predicate Valid(s: Layout)
  {
    && s.width > 0
    && s.geometry == ComputeGeometry(s.width, s.config)
    && 0.0 <= s.factor <= 1.0
    && 0.0 <= s.config.animationDuration
    && (s.view.menuVisible <==> s.factor != 0.0)
    && (s.animation.Some? ==> AnimationOk(s.animation.value))
    && EffectsOk(s.trace)
  }

  lemma EffectsOkAppend(a: seq<Effect>, b: seq<Effect>)
    ensures EffectsOk(a) && EffectsOk(b) ==> EffectsOk(a + b)
  {
    if EffectsOk(a) && EffectsOk(b) {
      forall i | 0 <= i < |a + b| ensures EffectOk((a + b)[i]) {
        if i < |a| { assert (a + b)[i] == a[i]; } else { assert (a + b)[i] == b[i - |a|]; }
      }
    }
  }

  // ---------------------------------------------------------------------
  // Pure helpers

  /** The clamping at the head of setSideMenuAnimation */
  function Clamp(f: real): (c: real)
    ensures 0.0 <= c <= 1.0
    ensures 0.0 <= f <= 1.0 ==> c == f
    ensures f < 0.0 ==> c == 0.0
    ensures f > 1.0 ==> c == 1.0
  {
    if f < 0.0 then 0.0 else if f > 1.0 then 1.0 else f
  }

  /**
   * getFactorForTouch: the swipe distance in the closing or opening
   * direction, stretched by SwipeDistanceFactor, as a fraction of the width,
   * counted down from 1 when open and up from 0 when closed. In both cases
   * the factor starts at the current endpoint and grows as the finger moves
   * right.
   */
  function FactorForTouch(open: bool, downX: real, x: real, width: int): (f: real)
    requires width > 0
    ensures f == (if open then 1.0 else 0.0) + SwipeDistanceFactor * (x - downX) / width as real
  {
    var swipeDistance := (if open then downX - x else x - downX) * SwipeDistanceFactor;
    var factor := swipeDistance / width as real;
    if open then 1.0 - factor else factor
  }

  /** isViewContains: the bounds are inclusive on all four sides */
  function ViewContains(r: Rect, rx: int, ry: int): (b: bool)
    ensures b <==> r.left <= rx <= r.left + r.width && r.top <= ry <= r.top + r.height
  {
    !(rx < r.left || rx > r.left + r.width || ry < r.top || ry > r.top + r.height)
  }

  /** inContentContainer: the raw coordinates are narrowed with (int) before the test */
  function InContent(content: Rect, x: real, y: real): (b: bool)
    ensures b <==>
      && content.left <= Trunc(x) <= content.left + content.width
      && content.top <= Trunc(y) <= content.top + content.height
  {
    ViewContains(content, Trunc(x), Trunc(y))
  }

  /** calculateValues(width) */
  function ComputeGeometry(width: int, c: Config): (g: Geometry)
    ensures c.contentPeekWidth.Some? ==> g.translationX == width - c.contentPeekWidth.value
    ensures g.contentScaleDiff == 1.0 - c.contentPeekSizePercent
    ensures g.menuScaleDiff == c.menuStartSizePercent - 1.0
  {
    var translationX :=
      if c.contentPeekWidth.Some? then width - c.contentPeekWidth.value
      else Trunc(width as real - width as real * c.contentPeekPercent);
    Geometry(translationX, 1.0 - c.contentPeekSizePercent, c.menuStartSizePercent - 1.0)
  }

  /**
   * With a peek percentage in [0,1], the translation is the width share left
   * uncovered by the peek, narrowed toward zero, so it lies within the width.
   */
  lemma PercentTranslationBounds(width: int, c: Config)
    requires c.contentPeekWidth.None? && 0 <= width && 0.0 <= c.contentPeekPercent <= 1.0
    ensures
      var t := ComputeGeometry(width, c).translationX;
      && 0 <= t <= width
      && t as real <= width as real * (1.0 - c.contentPeekPercent) < t as real + 1.0
  {
    var w := width as real;
    var p := c.contentPeekPercent;
    assert w - w * p == w * (1.0 - p);
    assert w * p <= w * 1.0;
    assert 0.0 <= w * p;
  }

  function Notify(present: bool, e: Effect): seq<Effect>
  {
    if present then [e] else []
  }

  function CurveFor(flingActive: bool): Curve
  {
    if flingActive then Decelerate else AccelerateDecelerate
  }

  /** The factor broadcast of syncContentContainerState: content first, then menu */
  function FactorBroadcast(contentListens: bool, menuListens: bool, f: real): seq<Effect>
  {
    Notify(contentListens, ContentFactorUpdate(f)) + Notify(menuListens, MenuFactorUpdate(f))
  }

  // ---------------------------------------------------------------------
  // Construction and configuration

  /**
   * A freshly constructed layout whose two children have been inflated:
   * nothing is cached yet (the width is 0 until the first size change) and
   * onFinishInflate has run syncContentContainerState once.
   */
  function Inflated(th: Thresholds, contentListens: bool, menuListens: bool): (s: Layout)
    ensures !s.open && !s.locked && s.factor == 0.0 && s.animation.None?
    ensures !s.view.menuVisible && s.config == DefaultConfig
    ensures s.trace == FactorBroadcast(contentListens, menuListens, 0.0)
    ensures s.thresholds == th && !s.hasStateListener && s.width == 0
    ensures s.contentListens == contentListens && s.menuListens == menuListens
    ensures s.session == Session(0.0, 0.0, 0, false, false, false)
  {
    var constructed := Layout(
      th, DefaultConfig, 0, Geometry(0, 0.0, 0.0), false, false, contentListens, menuListens,
      false, 0.0, None, Session(0.0, 0.0, 0, false, false, false),
      Transforms(0.0, 1.0, 1.0, true), []);
    SyncContentContainerState(constructed)
  }

  /** calculateValues applied to the layout's state */
  function CalculateValues(s: Layout, width: int): (r: Layout)
    ensures r.geometry == ComputeGeometry(width, s.config)
    ensures r == s.(geometry := r.geometry)
  {
    s.(geometry := ComputeGeometry(width, s.config))
  }

  /** onSizeChanged(w): the new width, and the cache recomputed for it */
  function OnSizeChanged(s: Layout, w: int): (r: Layout)
    ensures r.width == w && r.geometry == ComputeGeometry(w, r.config)
    ensures r == s.(width := w, geometry := r.geometry)
  {
    CalculateValues(s.(width := w), w)
  }

  /** setContentPeekDistanceWidth: the Java argument is a nullable Integer */
  function SetContentPeekDistanceWidth(s: Layout, width: Option<int>): (r: Layout)
    ensures r.config == s.config.(contentPeekWidth := width)
    ensures r.geometry == ComputeGeometry(s.width, r.config)
    ensures r == s.(config := r.config, geometry := r.geometry)
  {
    CalculateValues(s.(config := s.config.(contentPeekWidth := width)), s.width)
  }

  /** setContentPeekDistancePercent: clears the fixed width so that the percentage takes effect */
  function SetContentPeekDistancePercent(s: Layout, percent: real): (r: Layout)
    ensures r.config == s.config.(contentPeekWidth := None, contentPeekPercent := percent)
    ensures r.geometry == ComputeGeometry(s.width, r.config)
    ensures r == s.(config := r.config, geometry := r.geometry)
  {
    CalculateValues(s.(config := s.config.(contentPeekWidth := None, contentPeekPercent := percent)), s.width)
  }

  function SetContentPeekSizePercent(s: Layout, percent: real): (r: Layout)
    ensures r.config == s.config.(contentPeekSizePercent := percent)
    ensures r.geometry == ComputeGeometry(s.width, r.config)
    ensures r.geometry.contentScaleDiff == 1.0 - percent
    ensures r == s.(config := r.config, geometry := r.geometry)
  {
    CalculateValues(s.(config := s.config.(contentPeekSizePercent := percent)), s.width)
  }

  function SetMenuSizePercent(s: Layout, percent: real): (r: Layout)
    ensures r.config == s.config.(menuStartSizePercent := percent)
    ensures r.geometry == ComputeGeometry(s.width, r.config)
    ensures r.geometry.menuScaleDiff == percent - 1.0
    ensures r == s.(config := r.config, geometry := r.geometry)
  {
    CalculateValues(s.(config := s.config.(menuStartSizePercent := percent)), s.width)
  }

  /** setAnimationDuration: the long argument is stored as a float; nothing is recomputed */
  function SetAnimationDuration(s: Layout, duration: int): (r: Layout)
    ensures r.config.animationDuration == duration as real
    ensures r == s.(config := s.config.(animationDuration := duration as real))
  {
    s.(config := s.config.(animationDuration := duration as real))
  }

  // ---------------------------------------------------------------------
  // Factor application

  /** syncContentContainerState */
  function SyncContentContainerState(s: Layout): (r: Layout)
    ensures r.view.menuVisible <==> s.factor != 0.0
    ensures r.trace == s.trace + FactorBroadcast(s.contentListens, s.menuListens, s.factor)
    ensures r == s.(view := s.view.(menuVisible := r.view.menuVisible), trace := r.trace)
  {
    s.(view := s.view.(menuVisible := s.factor != 0.0),
       trace := s.trace + FactorBroadcast(s.contentListens, s.menuListens, s.factor))
  }

  /**
   * The transforms setSideMenuAnimation gives the panes for a clamped factor c:
   * the content slides by the cached translation times c and shrinks by the
   * content scale difference times c; the menu starts over-scaled by its scale
   * difference and settles at 1 as c reaches 1; the menu is hidden exactly at 0.
   */
  function Pose(g: Geometry, c: real): (t: Transforms)
    ensures t.contentTranslationX == g.translationX as real * c
    ensures t.contentScale == 1.0 - g.contentScaleDiff * c
    ensures t.menuScale == 1.0 + g.menuScaleDiff * (1.0 - c)
    ensures t.menuVisible <==> c != 0.0
  {
    Transforms(g.translationX as real * c, 1.0 - g.contentScaleDiff * c, 1.0 + g.menuScaleDiff * (1.0 - c), c != 0.0)
  }

  /**
   * setSideMenuAnimation(f): clamp, announce the first reveal when leaving 0,
   * pose both panes from the cached geometry, then sync visibility and
   * broadcast the clamped factor.
   */
  function SetSideMenuAnimation(s: Layout, f: real): (r: Layout)
    ensures r.factor == Clamp(f)
    ensures r.view == Pose(s.geometry, r.factor)
    ensures r.trace == s.trace
      + Notify(s.hasStateListener && s.factor == 0.0 && r.factor > 0.0, SideMenuFirstReveal)
      + FactorBroadcast(s.contentListens, s.menuListens, r.factor)
    ensures r == s.(factor := r.factor, view := r.view, trace := r.trace)
  {
    var c := Clamp(f);
    var revealed := s.(trace := s.trace + Notify(s.hasStateListener && s.factor == 0.0 && c > 0.0, SideMenuFirstReveal));
    var posed := revealed.(factor := c, view := Pose(s.geometry, c).(menuVisible := s.view.menuVisible));
    SyncContentContainerState(posed)
  }

  // ---------------------------------------------------------------------
  // Open, close, toggle

  /** The animator openSideMenuAnimate starts: toward 1, for the remaining share of the duration */
  function OpeningAnimation(factor: real, duration: real, flingActive: bool): (a: Animation)
    ensures a.from == factor && a.to == 1.0
    ensures a.curve == (if flingActive then Decelerate else AccelerateDecelerate)
  {
    Animation(factor, 1.0, Trunc((1.0 - factor) * duration), CurveFor(flingActive))
  }

  /** The animator closeSideMenuAnimate starts: toward 0, for the factor's share of the duration */
  function ClosingAnimation(factor: real, duration: real, flingActive: bool): (a: Animation)
    ensures a.from == factor && a.to == 0.0
    ensures a.curve == (if flingActive then Decelerate else AccelerateDecelerate)
  {
    Animation(factor, 0.0, Trunc(factor * duration), CurveFor(flingActive))
  }

  /** The share of the duration a factor in [0,1] stands for lies within the duration */
  lemma ShareWithin(factor: real, duration: real)
    requires 0.0 <= factor <= 1.0 && 0.0 <= duration
    ensures 0.0 <= factor * duration <= duration
    ensures (1.0 - factor) * duration == duration - factor * duration
  {
    assert duration - factor * duration == (1.0 - factor) * duration;
    assert 0.0 <= (1.0 - factor) * duration;
  }

  /** Splitting d at p and narrowing both parts loses less than 2 and never gains */
  lemma TruncatedSplit(d: real, p: real)
    requires 0.0 <= p <= d
    ensures 0 <= Trunc(d - p) && Trunc(d - p) as real <= d - p < Trunc(d - p) as real + 1.0
    ensures 0 <= Trunc(p) && Trunc(p) as real <= p < Trunc(p) as real + 1.0
    ensures d - 2.0 < (Trunc(d - p) + Trunc(p)) as real <= d
  {
  }

  /**
   * From a factor in [0,1], the opening animator runs for the share of the
   * duration still to cover and the closing one for the share already
   * covered, each narrowed toward zero: never negative, never longer than
   * the whole duration, and the two add up to the duration within 2 ms.
   */
  lemma AnimationDurationBounds(factor: real, duration: real, flingActive: bool)
    requires 0.0 <= factor <= 1.0 && 0.0 <= duration
    ensures
      var opening := OpeningAnimation(factor, duration, flingActive).duration;
      var closing := ClosingAnimation(factor, duration, flingActive).duration;
      && 0 <= opening && opening as real <= duration
      && opening as real <= (1.0 - factor) * duration < opening as real + 1.0
      && 0 <= closing && closing as real <= duration
      && closing as real <= factor * duration < closing as real + 1.0
      && duration - 2.0 < (opening + closing) as real <= duration
  {
    ShareWithin(factor, duration);
    var covered := factor * duration;
    TruncatedSplit(duration, covered);
    assert OpeningAnimation(factor, duration, flingActive).duration == Trunc(duration - covered);
    assert ClosingAnimation(factor, duration, flingActive).duration == Trunc(covered);
  }

  /** The animator openSideMenuAnimate would start in state s */
  function Opening(s: Layout): Animation
  {
    OpeningAnimation(s.factor, s.config.animationDuration, s.session.flingActive)
  }

  /** The animator closeSideMenuAnimate would start in state s */
  function Closing(s: Layout): Animation
  {
    ClosingAnimation(s.factor, s.config.animationDuration, s.session.flingActive)
  }

  /**
   * openSideMenuAnimate: the handle is overwritten without cancelling the
   * one it held, and the listener hears onSideMenuOpened at the start.
   */
  function OpenSideMenuAnimate(s: Layout): (r: Layout)
    ensures r.animation == Some(Opening(s))
    ensures r.trace == s.trace + [AnimationStarted(Opening(s))] + Notify(s.hasStateListener, SideMenuOpened)
    ensures r == s.(animation := r.animation, trace := r.trace)
  {
    var a := Opening(s);
    s.(animation := Some(a), trace := s.trace + [AnimationStarted(a)] + Notify(s.hasStateListener, SideMenuOpened))
  }

  /** closeSideMenuAnimate: symmetric, toward 0, announcing onSideMenuClosed */
  function CloseSideMenuAnimate(s: Layout): (r: Layout)
    ensures r.animation == Some(Closing(s))
    ensures r.trace == s.trace + [AnimationStarted(Closing(s))] + Notify(s.hasStateListener, SideMenuClosed)
    ensures r == s.(animation := r.animation, trace := r.trace)
  {
    var a := Closing(s);
    s.(animation := Some(a), trace := s.trace + [AnimationStarted(a)] + Notify(s.hasStateListener, SideMenuClosed))
  }

  function Cancellation(a: Option<Animation>): seq<Effect>
  {
    if a.Some? then [AnimationCancelled(a.value)] else []
  }

  /** `mAnimation.cancel(); mAnimation = null;` when a handle is held */
  function CancelAnimation(s: Layout): (r: Layout)
    ensures r.animation.None?
    ensures r.trace == s.trace + Cancellation(s.animation)
    ensures r == s.(animation := None, trace := r.trace)
  {
    s.(animation := None, trace := s.trace + Cancellation(s.animation))
  }

  /**
   * openSideMenu. Already open: returns false without looking at the lock,
   * and re-animates only when the factor is short of 1 and no handle was ever
   * kept. Closed and locked: refuses and changes nothing. Closed and unlocked:
   * cancels the held animator, opens, starts toward 1, returns true.
   */
  function OpenSideMenu(s: Layout): (o: Outcome)
    ensures o.result <==> !s.open && !s.locked
    ensures o.layout.open <==> s.open || !s.locked
    ensures o.layout.factor == s.factor
    ensures o.result ==>
      var a := Opening(s);
      && o.layout.animation == Some(a)
      && o.layout.trace == s.trace + Cancellation(s.animation) + [AnimationStarted(a)] + Notify(s.hasStateListener, SideMenuOpened)
      && o.layout == s.(open := true, animation := Some(a), trace := o.layout.trace)
    ensures !s.open && s.locked ==> o.layout == s
    ensures s.open && (s.factor >= 1.0 || s.animation.Some?) ==> o.layout == s
    ensures s.open && s.factor < 1.0 && s.animation.None? ==> o.layout == OpenSideMenuAnimate(s)
  {
    if s.open then
      Outcome(if s.factor < 1.0 && s.animation.None? then OpenSideMenuAnimate(s) else s, false)
    else if s.locked then
      Outcome(s, false)
    else
      Outcome(OpenSideMenuAnimate(CancelAnimation(s).(open := true)), true)
  }

  /** closeSideMenu: the mirror image of openSideMenu, toward 0 */
  function CloseSideMenu(s: Layout): (o: Outcome)
    ensures o.result <==> s.open && !s.locked
    ensures o.layout.open <==> s.open && s.locked
    ensures o.layout.factor == s.factor
    ensures o.result ==>
      var a := Closing(s);
      && o.layout.animation == Some(a)
      && o.layout.trace == s.trace + Cancellation(s.animation) + [AnimationStarted(a)] + Notify(s.hasStateListener, SideMenuClosed)
      && o.layout == s.(open := false, animation := Some(a), trace := o.layout.trace)
    ensures s.open && s.locked ==> o.layout == s
    ensures !s.open && (s.factor <= 0.0 || s.animation.Some?) ==> o.layout == s
    ensures !s.open && s.factor > 0.0 && s.animation.None? ==> o.layout == CloseSideMenuAnimate(s)
  {
    if !s.open then
      Outcome(if s.factor > 0.0 && s.animation.None? then CloseSideMenuAnimate(s) else s, false)
    else if s.locked then
      Outcome(s, false)
    else
      Outcome(CloseSideMenuAnimate(CancelAnimation(s).(open := false)), true)
  }

  /**
   * toggle: closeSideMenu when open, openSideMenu otherwise; so unlocked it
   * always flips the open state, and locked it never does.
   */
  function Toggle(s: Layout): (r: Layout)
    ensures s.open ==> r == CloseSideMenu(s).layout
    ensures !s.open ==> r == OpenSideMenu(s).layout
    ensures r.open == (if s.locked then s.open else !s.open)
    ensures r.factor == s.factor && r.width == s.width
  {
    if s.open then CloseSideMenu(s).layout else OpenSideMenu(s).layout
  }

  // ---------------------------------------------------------------------
  // Touch handling

  /** A fast release far enough in the direction that changes the state */
  predicate IsFling(s: Layout, x: real, now: int)
    ensures IsFling(s, x, now) <==>
      && now - s.session.downTime < TouchFlingMaxDuration
      && (if s.open then x < s.session.downX - s.thresholds.flingMinDistance as real
          else x > s.session.downX + s.thresholds.flingMinDistance as real)
  {
    && now - s.session.downTime < TouchFlingMaxDuration
    && (if s.open then s.session.downX - x else x - s.session.downX) > s.thresholds.flingMinDistance as real
  }

  /** A short release close to where the finger went down, on both axes */
  predicate IsTap(s: Layout, x: real, y: real, now: int)
    ensures IsTap(s, x, y, now) <==>
      && now - s.session.downTime < TouchTapDurationMax
      && s.session.downX - s.thresholds.tapDistanceMax as real < x < s.session.downX + s.thresholds.tapDistanceMax as real
      && s.session.downY - s.thresholds.tapDistanceMax as real < y < s.session.downY + s.thresholds.tapDistanceMax as real
  {
    && now - s.session.downTime < TouchTapDurationMax
    && Abs(s.session.downX - x) < s.thresholds.tapDistanceMax as real
    && Abs(s.session.downY - y) < s.thresholds.tapDistanceMax as real
  }

  /** How an up event is read */
  datatype Release = Fling | Swipe(towardOpen: bool) | TapClose | Unrecognised

  /** The priority order of the up branch: fling, then an active swipe, then a closing tap */
  function ClassifyRelease(s: Layout, x: real, y: real, now: int, content: Rect): (r: Release)
    requires s.width > 0
    ensures r == Fling <==> IsFling(s, x, now)
    ensures r.Swipe? <==> !IsFling(s, x, now) && s.session.swipeActive
    ensures r.Swipe? ==> (r.towardOpen <==> FactorForTouch(s.open, s.session.downX, x, s.width) >= 0.5)
    ensures r == TapClose <==>
      !IsFling(s, x, now) && !s.session.swipeActive && IsTap(s, x, y, now) && s.open && InContent(content, x, y)
  {
    if IsFling(s, x, now) then Fling
    else if s.session.swipeActive then Swipe(FactorForTouch(s.open, s.session.downX, x, s.width) >= 0.5)
    else if IsTap(s, x, y, now) && s.open && InContent(content, x, y) then TapClose
    else Unrecognised
  }

  /**
   * The swipe section of the up branch: toward the side the finger was
   * released on. Toward closed it calls closeSideMenu when open but
   * closeSideMenuAnimate directly when already closed, so a closed menu gets
   * a fresh animator, with no cancel of the held one, and onSideMenuClosed
   * again; symmetrically toward open. Unlocked, the held animator is always
   * the one just started toward that side.
   */
  function SettleSwipe(s: Layout, towardOpen: bool): (r: Layout)
    ensures r.open == (if towardOpen then s.open || !s.locked else s.open && s.locked)
    ensures r.factor == s.factor && r.locked == s.locked && r.width == s.width
    ensures !s.locked ==> r.animation == Some(if towardOpen then Opening(s) else Closing(s))
    ensures !towardOpen && s.open ==> r == CloseSideMenu(s).layout
    ensures !towardOpen && !s.open ==>
      r.trace == s.trace + [AnimationStarted(Closing(s))] + Notify(s.hasStateListener, SideMenuClosed)
    ensures towardOpen && !s.open ==> r == OpenSideMenu(s).layout
    ensures towardOpen && s.open ==>
      r.trace == s.trace + [AnimationStarted(Opening(s))] + Notify(s.hasStateListener, SideMenuOpened)
    ensures !towardOpen && s.open && !s.locked ==>
      r.trace == s.trace + Cancellation(s.animation) + [AnimationStarted(Closing(s))] + Notify(s.hasStateListener, SideMenuClosed)
    ensures towardOpen && !s.open && !s.locked ==>
      r.trace == s.trace + Cancellation(s.animation) + [AnimationStarted(Opening(s))] + Notify(s.hasStateListener, SideMenuOpened)
    ensures s.locked && (towardOpen != s.open) ==> r == s
    ensures towardOpen && s.open ==> r == OpenSideMenuAnimate(s)
    ensures !towardOpen && !s.open ==> r == CloseSideMenuAnimate(s)
  {
    if !towardOpen then
      (if s.open then CloseSideMenu(s).layout else CloseSideMenuAnimate(s))
    else
      (if !s.open then OpenSideMenu(s).layout else OpenSideMenuAnimate(s))
  }

  /**
   * The up branch of onTouchEvent. A fling marks the session as flung (the
   * decelerate curve) and opens or closes. A swipe released below one half
   * goes toward closed: closeSideMenu when open, but when already closed
   * closeSideMenuAnimate directly, with no cancel and a second
   * onSideMenuClosed; symmetrically toward open. A tap on the content of an
   * open menu closes it.
   */
  function OnRelease(s: Layout, x: real, y: real, now: int, content: Rect): (r: Layout)
    requires s.width > 0
    ensures IsFling(s, x, now) ==> r.session.flingActive
    ensures IsFling(s, x, now) && !s.locked ==>
      r.open == !s.open && r.animation.Some? && r.animation.value.curve == Decelerate
    ensures IsFling(s, x, now) ==>
      var flung := s.(session := s.session.(flingActive := true));
      r == (if s.open then CloseSideMenu(flung).layout else OpenSideMenu(flung).layout)
    ensures !IsFling(s, x, now) && s.session.swipeActive ==>
      r == SettleSwipe(s, FactorForTouch(s.open, s.session.downX, x, s.width) >= 0.5)
    ensures ClassifyRelease(s, x, y, now, content) == TapClose ==> r == CloseSideMenu(s).layout
    ensures ClassifyRelease(s, x, y, now, content) == Unrecognised ==> r == s
    ensures r.factor == s.factor && r.locked == s.locked && r.width == s.width
  {
    match ClassifyRelease(s, x, y, now, content)
    case Fling =>
      var flung := s.(session := s.session.(flingActive := true));
      if s.open then CloseSideMenu(flung).layout else OpenSideMenu(flung).layout
    case Swipe(towardOpen) =>
      SettleSwipe(s, towardOpen)
    case TapClose =>
      CloseSideMenu(s).layout
    case Unrecognised =>
      s
  }

  /**
   * How a move changes the touch session before the swipe is active: a valid
   * swipe is invalidated by a vertical drift past the threshold, and becomes
   * active once the horizontal drift passes the minimum. An active swipe stays
   * active; only the two flags can change.
   */
  function TrackSwipe(t: Session, th: Thresholds, x: real, y: real): (u: Session)
    ensures !t.swipeActive && !t.swipeValid ==> u == t
    ensures !t.swipeActive && t.swipeValid && Abs(y - t.downY) > th.swipeDistanceInvalidMax as real ==>
      u == t.(swipeValid := false)
    ensures u.swipeActive <==>
      || t.swipeActive
      || (&& t.swipeValid
          && Abs(y - t.downY) <= th.swipeDistanceInvalidMax as real
          && Abs(x - t.downX) > th.swipeDistanceMin as real)
    ensures !t.swipeActive && t.swipeValid && Abs(y - t.downY) <= th.swipeDistanceInvalidMax as real ==> u.swipeValid
    ensures u == t.(swipeValid := u.swipeValid, swipeActive := u.swipeActive)
    ensures t.swipeActive ==> u == t
  {
    if t.swipeActive || !t.swipeValid then t
    else if Abs(y - t.downY) > th.swipeDistanceInvalidMax as real then t.(swipeValid := false)
    else t.(swipeActive := Abs(x - t.downX) > th.swipeDistanceMin as real)
  }

  /**
   * The move branch of onTouchEvent. Before the swipe is active, a vertical
   * drift past the invalidation threshold invalidates it; otherwise it becomes
   * active once the horizontal drift passes the minimum. While active, each
   * move applies the factor for the touch.
   */
  function TouchMove(s: Layout, x: real, y: real): (r: Layout)
    requires s.width > 0
    ensures !s.session.swipeActive && !s.session.swipeValid ==> r == s
    ensures !s.session.swipeActive && s.session.swipeValid
              && Abs(y - s.session.downY) > s.thresholds.swipeDistanceInvalidMax as real ==>
      r == s.(session := s.session.(swipeValid := false))
    ensures r.session.swipeActive <==>
      || s.session.swipeActive
      || (&& s.session.swipeValid
          && Abs(y - s.session.downY) <= s.thresholds.swipeDistanceInvalidMax as real
          && Abs(x - s.session.downX) > s.thresholds.swipeDistanceMin as real)
    ensures r.session == TrackSwipe(s.session, s.thresholds, x, y)
    ensures r.session.swipeActive ==>
      r == SetSideMenuAnimation(s.(session := r.session), FactorForTouch(s.open, s.session.downX, x, s.width))
    ensures !r.session.swipeActive ==> r == s.(session := r.session)
    ensures r.open == s.open && r.locked == s.locked && r.animation == s.animation && r.width == s.width
  {
    var t := TrackSwipe(s.session, s.thresholds, x, y);
    if t.swipeActive then SetSideMenuAnimation(s.(session := t), FactorForTouch(s.open, s.session.downX, x, s.width))
    else s.(session := t)
  }

  /**
   * onTouchEvent. Locked, it defers to the framework. Unlocked, it always
   * consumes the event; its down branch records the position and time but
   * leaves the swipe and fling flags as they were.
   */
  function OnTouchEvent(s: Layout, ev: TouchEvent, content: Rect, superHandles: bool): (o: Outcome)
    requires s.width > 0
    ensures s.locked ==> o == Outcome(s, superHandles)
    ensures !s.locked ==> o.result
    ensures !s.locked && ev.action == Down ==>
      o.layout == s.(session := s.session.(downX := ev.rawX, downY := ev.rawY, downTime := ev.time))
    ensures !s.locked && ev.action == Move ==> o.layout == TouchMove(s, ev.rawX, ev.rawY)
    ensures !s.locked && ev.action == Up ==> o.layout == OnRelease(s, ev.rawX, ev.rawY, ev.time, content)
    ensures ev.action == OtherAction ==> o.layout == s
    ensures o.layout.width == s.width
  {
    if s.locked then Outcome(s, superHandles)
    else
      match ev.action
      case Down => Outcome(s.(session := s.session.(downX := ev.rawX, downY := ev.rawY, downTime := ev.time)), true)
      case Move => Outcome(TouchMove(s, ev.rawX, ev.rawY), true)
      case Up => Outcome(OnRelease(s, ev.rawX, ev.rawY, ev.time, content), true)
      case OtherAction => Outcome(s, true)
  }

  /**
   * onInterceptTouchEvent. On down it starts a session: the swipe is valid
   * when the menu is open and the point is on the content, or when the point
   * is within the touch area from the left edge; the swipe and fling flags are
   * reset; it intercepts when open and on the content. On move with a valid
   * swipe, a vertical drift past the threshold invalidates the swipe, and
   * otherwise it intercepts once the horizontal drift passes the minimum.
   * Only the session changes.
   */
  function OnInterceptTouchEvent(s: Layout, ev: TouchEvent, content: Rect, superIntercepts: bool): (o: Outcome)
    ensures s.locked ==> o == Outcome(s, superIntercepts)
    ensures !s.locked && ev.action == Down ==>
      var inside := InContent(content, ev.rawX, ev.rawY);
      && o.layout.session == Session(ev.rawX, ev.rawY, ev.time,
           (s.open && inside) || ev.rawX <= s.thresholds.touchAreaSize as real, false, false)
      && (o.result <==> (s.open && inside) || superIntercepts)
    ensures !s.locked && ev.action == Move && s.session.swipeValid ==>
      var dx := Abs(ev.rawX - s.session.downX);
      var dy := Abs(ev.rawY - s.session.downY);
      && (dy > s.thresholds.swipeDistanceInvalidMax as real ==>
            o.layout == s.(session := s.session.(swipeValid := false)) && o.result == superIntercepts)
      && (dy <= s.thresholds.swipeDistanceInvalidMax as real ==>
            o.layout == s && (o.result <==> dx > s.thresholds.swipeDistanceMin as real || superIntercepts))
    ensures ev.action == Move && !s.session.swipeValid ==> o == Outcome(s, superIntercepts)
    ensures ev.action == Up || ev.action == OtherAction ==> o == Outcome(s, superIntercepts)
    ensures o.layout == s.(session := o.layout.session)
  {
    if s.locked then Outcome(s, superIntercepts)
    else
      match ev.action
      case Down =>
        var inside := InContent(content, ev.rawX, ev.rawY);
        var valid := (s.open && inside) || ev.rawX <= s.thresholds.touchAreaSize as real;
        Outcome(s.(session := Session(ev.rawX, ev.rawY, ev.time, valid, false, false)),
                (s.open && inside) || superIntercepts)
      case Move =>
        if !s.session.swipeValid then Outcome(s, superIntercepts)
        else if Abs(ev.rawY - s.session.downY) > s.thresholds.swipeDistanceInvalidMax as real then
          Outcome(s.(session := s.session.(swipeValid := false)), superIntercepts)
        else
          Outcome(s, Abs(ev.rawX - s.session.downX) > s.thresholds.swipeDistanceMin as real || superIntercepts)
      case _ => Outcome(s, superIntercepts)
  }

  // ---------------------------------------------------------------------
  // Sequences of calls

  /** One public entry point of the layout; animation ticks are SetFactor calls */
  datatype Op =
    | OpenMenu
    | CloseMenu
    | ToggleMenu
    | SetFactor(factor: real)
    | SetLockedTo(locked: bool)
    | SetStateListener(present: bool)
    | SizeChanged(width: int)
    | SetPeekWidth(peekWidth: Option<int>)
    | SetPeekPercent(percent: real)
    | SetPeekSizePercent(percent: real)
    | SetMenuStartSizePercent(percent: real)
    | SetDuration(duration: int)
    | Intercept(ev: TouchEvent, content: Rect, superResult: bool)
    | Touch(ev: TouchEvent, content: Rect, superResult: bool)

  /** A laid-out layout is never resized to zero width, and durations are non-negative */
  predicate OpOk(op: Op)
  {
    match op
    case SizeChanged(w) => w > 0
    case SetDuration(d) => 0 <= d
    case _ => true
  }

  function Step(s: Layout, op: Op): (r: Layout)
    requires s.width > 0 && OpOk(op)
    ensures r.width > 0
  {
    match op
    case OpenMenu => OpenSideMenu(s).layout
    case CloseMenu => CloseSideMenu(s).layout
    case ToggleMenu => Toggle(s)
    case SetFactor(f) => SetSideMenuAnimation(s, f)
    case SetLockedTo(b) => s.(locked := b)
    case SetStateListener(b) => s.(hasStateListener := b)
    case SizeChanged(w) => OnSizeChanged(s, w)
    case SetPeekWidth(w) => SetContentPeekDistanceWidth(s, w)
    case SetPeekPercent(p) => SetContentPeekDistancePercent(s, p)
    case SetPeekSizePercent(p) => SetContentPeekSizePercent(s, p)
    case SetMenuStartSizePercent(p) => SetMenuSizePercent(s, p)
    case SetDuration(d) => SetAnimationDuration(s, d)
    case Intercept(ev, content, sup) => OnInterceptTouchEvent(s, ev, content, sup).layout
    case Touch(ev, content, sup) => OnTouchEvent(s, ev, content, sup).layout
  }

  predicate OpsOk(ops: seq<Op>)
  {
    forall i :: 0 <= i < |ops| ==> OpOk(ops[i])
  }

  function Run(s: Layout, ops: seq<Op>): Layout
    requires s.width > 0 && OpsOk(ops)
    decreases |ops|
  {
    if ops == [] then s else Run(Step(s, ops[0]), ops[1..])
  }

  // ---------------------------------------------------------------------
  // Every entry point keeps Valid

  lemma SetSideMenuAnimationKeepsValid(s: Layout, f: real)
    requires Valid(s)
    ensures Valid(SetSideMenuAnimation(s, f))
  {
    var c := Clamp(f);
    var r := SetSideMenuAnimation(s, f);
    var firstReveal := Notify(s.hasStateListener && s.factor == 0.0 && c > 0.0, SideMenuFirstReveal);
    var broadcast := FactorBroadcast(s.contentListens, s.menuListens, c);
    assert EffectsOk(broadcast) by {
      EffectsOkAppend(Notify(s.contentListens, ContentFactorUpdate(c)), Notify(s.menuListens, MenuFactorUpdate(c)));
    }
    EffectsOkAppend(s.trace, firstReveal);
    EffectsOkAppend(s.trace + firstReveal, broadcast);
    assert r == s.(factor := c, view := Pose(s.geometry, c), trace := s.trace + firstReveal + broadcast);
  }

  lemma OpenSideMenuAnimateKeepsValid(s: Layout)
    requires Valid(s)
    ensures Valid(OpenSideMenuAnimate(s))
  {
    AnimationDurationBounds(s.factor, s.config.animationDuration, s.session.flingActive);
    EffectsOkAppend(s.trace, [AnimationStarted(Opening(s))]);
    EffectsOkAppend(s.trace + [AnimationStarted(Opening(s))], Notify(s.hasStateListener, SideMenuOpened));
  }

  lemma CloseSideMenuAnimateKeepsValid(s: Layout)
    requires Valid(s)
    ensures Valid(CloseSideMenuAnimate(s))
  {
    AnimationDurationBounds(s.factor, s.config.animationDuration, s.session.flingActive);
    EffectsOkAppend(s.trace, [AnimationStarted(Closing(s))]);
    EffectsOkAppend(s.trace + [AnimationStarted(Closing(s))], Notify(s.hasStateListener, SideMenuClosed));
  }

  lemma OpenSideMenuKeepsValid(s: Layout)
    requires Valid(s)
    ensures Valid(OpenSideMenu(s).layout)
  {
    if s.open {
      if s.factor < 1.0 && s.animation.None? { OpenSideMenuAnimateKeepsValid(s); }
    } else if !s.locked {
      EffectsOkAppend(s.trace, Cancellation(s.animation));
      OpenSideMenuAnimateKeepsValid(CancelAnimation(s).(open := true));
    }
  }

  lemma CloseSideMenuKeepsValid(s: Layout)
    requires Valid(s)
    ensures Valid(CloseSideMenu(s).layout)
  {
    if !s.open {
      if s.factor > 0.0 && s.animation.None? { CloseSideMenuAnimateKeepsValid(s); }
    } else if !s.locked {
      EffectsOkAppend(s.trace, Cancellation(s.animation));
      CloseSideMenuAnimateKeepsValid(CancelAnimation(s).(open := false));
    }
  }

  lemma SettleSwipeKeepsValid(s: Layout, towardOpen: bool)
    requires Valid(s)
    ensures Valid(SettleSwipe(s, towardOpen))
  {
    if !towardOpen {
      if s.open { CloseSideMenuKeepsValid(s); } else { CloseSideMenuAnimateKeepsValid(s); }
    } else {
      if !s.open { OpenSideMenuKeepsValid(s); } else { OpenSideMenuAnimateKeepsValid(s); }
    }
  }

  lemma OnReleaseKeepsValid(s: Layout, x: real, y: real, now: int, content: Rect)
    requires Valid(s)
    ensures Valid(OnRelease(s, x, y, now, content))
  {
    match ClassifyRelease(s, x, y, now, content)
    case Fling =>
      var flung := s.(session := s.session.(flingActive := true));
      if s.open { CloseSideMenuKeepsValid(flung); } else { OpenSideMenuKeepsValid(flung); }
    case Swipe(towardOpen) =>
      SettleSwipeKeepsValid(s, towardOpen);
    case TapClose =>
      CloseSideMenuKeepsValid(s);
    case Unrecognised =>
  }

  lemma TouchMoveKeepsValid(s: Layout, x: real, y: real)
    requires Valid(s)
    ensures Valid(TouchMove(s, x, y))
  {
    var r := TouchMove(s, x, y);
    var t := s.session;
    if r.session.swipeActive {
      SetSideMenuAnimationKeepsValid(s.(session := r.session), FactorForTouch(s.open, t.downX, x, s.width));
    } else if !t.swipeActive && !t.swipeValid {
    } else if !t.swipeActive && Abs(y - t.downY) > s.thresholds.swipeDistanceInvalidMax as real {
    } else {
      assert r == s.(session := t.(swipeActive := false));
    }
  }

  lemma OnTouchEventKeepsValid(s: Layout, ev: TouchEvent, content: Rect, superHandles: bool)
    requires Valid(s)
    ensures Valid(OnTouchEvent(s, ev, content, superHandles).layout)
  {
    if !s.locked {
      match ev.action
      case Move => TouchMoveKeepsValid(s, ev.rawX, ev.rawY);
      case Up => OnReleaseKeepsValid(s, ev.rawX, ev.rawY, ev.time, content);
      case _ =>
    }
  }

  lemma StepKeepsValid(s: Layout, op: Op)
    requires Valid(s) && OpOk(op)
    ensures Valid(Step(s, op))
  {
    match op
    case OpenMenu => OpenSideMenuKeepsValid(s);
    case CloseMenu => CloseSideMenuKeepsValid(s);
    case ToggleMenu => if s.open { CloseSideMenuKeepsValid(s); } else { OpenSideMenuKeepsValid(s); }
    case SetFactor(f) => SetSideMenuAnimationKeepsValid(s, f);
    case Touch(ev, content, sup) => OnTouchEventKeepsValid(s, ev, content, sup);
    case _ =>
  }

  // ---------------------------------------------------------------------
  // Properties

  /**
   * Whatever sequence of calls, ticks and touches follows, the factor stays in
   * [0,1], the menu is hidden exactly at 0, the geometry cache stays current,
   * and every animator and broadcast recorded is well formed.
   */
  lemma {:induction false} RunKeepsValid(s: Layout, ops: seq<Op>)
    requires Valid(s) && OpsOk(ops)
    ensures Valid(Run(s, ops))
    decreases |ops|
  {
    if ops != [] {
      var s1 := Step(s, ops[0]);
      StepKeepsValid(s, ops[0]);
      assert OpsOk(ops[1..]) by {
        forall i | 0 <= i < |ops[1..]| ensures OpOk(ops[1..][i]) { assert ops[1..][i] == ops[i + 1]; }
      }
      RunKeepsValid(s1, ops[1..]);
    }
  }

  /** The construction, then a first layout pass, gives a valid layout */
  lemma {:induction false} LaidOutIsValid(th: Thresholds, contentListens: bool, menuListens: bool, w: int)
    requires w > 0
    ensures Valid(OnSizeChanged(Inflated(th, contentListens, menuListens), w))
  {
    var s := Inflated(th, contentListens, menuListens);
    var r := OnSizeChanged(s, w);
    assert EffectsOk(r.trace) by {
      forall i | 0 <= i < |r.trace| ensures EffectOk(r.trace[i]) {
        assert r.trace == FactorBroadcast(contentListens, menuListens, 0.0);
      }
    }
  }

  predicate IsMove(op: Op)
  {
    && (op.Intercept? || op.Touch?)
    && op.ev.action == Move
  }

  /**
   * Once a move has invalidated a swipe that was not yet active, no later
   * move of the sequence, intercepted or handled, changes anything.
   */
  lemma {:induction false} InvalidSwipeIgnoresMoves(s: Layout, ops: seq<Op>)
    requires s.width > 0 && !s.session.swipeValid && !s.session.swipeActive
    requires forall i :: 0 <= i < |ops| ==> IsMove(ops[i])
    ensures OpsOk(ops) && Run(s, ops) == s
    decreases |ops|
  {
    if ops != [] {
      assert IsMove(ops[0]);
      assert Step(s, ops[0]) == s;
      assert forall i :: 0 <= i < |ops[1..]| ==> ops[1..][i] == ops[i + 1];
      InvalidSwipeIgnoresMoves(s, ops[1..]);
    }
  }

  /** A move that drifts too far vertically before the swipe is active ends the swipe for the rest of the moves */
  lemma InvalidatingMoveEndsSwipe(s: Layout, ev: TouchEvent, content: Rect, sup: bool, later: seq<Op>)
    requires s.width > 0 && !s.locked && s.session.swipeValid && !s.session.swipeActive
    requires ev.action == Move && Abs(ev.rawY - s.session.downY) > s.thresholds.swipeDistanceInvalidMax as real
    requires forall i :: 0 <= i < |later| ==> IsMove(later[i])
    ensures
      var s1 := Step(s, Touch(ev, content, sup));
      && OpsOk(later)
      && Run(s1, later) == s.(session := s.session.(swipeValid := false))
  {
    var s1 := Step(s, Touch(ev, content, sup));
    InvalidSwipeIgnoresMoves(s1, later);
  }

  /** The worked examples of getFactorForTouch */
  lemma FactorForTouchExamples()
    ensures FactorForTouch(false, 100.0, 160.0, 300) == 0.24
    ensures FactorForTouch(true, 100.0, 40.0, 300) == 0.76
  {
  }

  /** A drag of width / 1.2 toward the other endpoint reaches it exactly */
  lemma FactorForTouchSpan(open: bool, downX: real, width: int)
    requires width > 0
    ensures FactorForTouch(open, downX, downX, width) == (if open then 1.0 else 0.0)
    ensures FactorForTouch(open, downX, downX + (if open then -1.0 else 1.0) * width as real / SwipeDistanceFactor, width)
         == (if open then 0.0 else 1.0)
  {
  }

  /**
   * The endpoints of the reveal, with a fresh cache: at 0 both panes are at
   * rest apart from the menu's start scale and the menu is hidden; at 1 the
   * content is at its peek size and offset by the translation.
   */
  lemma PoseAtEndpoints(s: Layout)
    requires s.geometry == ComputeGeometry(s.width, s.config)
    ensures
      var atZero := SetSideMenuAnimation(s, 0.0);
      && atZero.view.contentTranslationX == 0.0
      && atZero.view.contentScale == 1.0
      && atZero.view.menuScale == s.config.menuStartSizePercent
      && !atZero.view.menuVisible
    ensures
      var atOne := SetSideMenuAnimation(s, 1.0);
      && atOne.view.contentScale == s.config.contentPeekSizePercent
      && atOne.view.menuScale == 1.0
      && atOne.view.menuVisible
      && (s.config.contentPeekWidth.Some? ==>
            atOne.view.contentTranslationX == (s.width - s.config.contentPeekWidth.value) as real)
  {
  }

  /**
   * setSideMenuAnimation announces the first reveal exactly when the factor
   * leaves 0 and a listener is registered; the factor broadcast follows.
   */
  lemma FirstRevealExactlyWhenLeavingZero(s: Layout, f: real)
    ensures
      var r := SetSideMenuAnimation(s, f);
      && |s.trace| <= |r.trace|
      && (SideMenuFirstReveal in r.trace[|s.trace|..] <==> s.hasStateListener && s.factor == 0.0 && Clamp(f) > 0.0)
  {
    var r := SetSideMenuAnimation(s, f);
    var note := Notify(s.hasStateListener && s.factor == 0.0 && Clamp(f) > 0.0, SideMenuFirstReveal);
    var broadcast := FactorBroadcast(s.contentListens, s.menuListens, Clamp(f));
    assert r.trace == s.trace + note + broadcast;
    assert r.trace[|s.trace|..] == note + broadcast;
    OnlyNoteReveals(s.hasStateListener && s.factor == 0.0 && Clamp(f) > 0.0, s.contentListens, s.menuListens, Clamp(f));
  }

  /** A factor broadcast never announces the first reveal */
  lemma OnlyNoteReveals(present: bool, contentListens: bool, menuListens: bool, c: real)
    ensures SideMenuFirstReveal in Notify(present, SideMenuFirstReveal) + FactorBroadcast(contentListens, menuListens, c) <==> present
  {
    var broadcast := FactorBroadcast(contentListens, menuListens, c);
    assert SideMenuFirstReveal !in broadcast;
    if present {
      assert (Notify(present, SideMenuFirstReveal) + broadcast)[0] == SideMenuFirstReveal;
    } else {
      assert Notify(present, SideMenuFirstReveal) + broadcast == broadcast;
    }
  }

  /** The first reveal is announced once per departure from 0, not on later updates */
  lemma FirstRevealOncePerDeparture(s: Layout, f1: real, f2: real)
    requires Clamp(f1) > 0.0
    ensures
      var s1 := SetSideMenuAnimation(s, f1);
      var s2 := SetSideMenuAnimation(s1, f2);
      SideMenuFirstReveal !in s2.trace[|s1.trace|..]
  {
  }

  /** Locked, the calls that would change the state refuse and change nothing */
  lemma LockedRefusesChange(s: Layout)
    requires s.locked
    ensures !s.open ==> OpenSideMenu(s) == Outcome(s, false) && Toggle(s) == s
    ensures s.open ==> CloseSideMenu(s) == Outcome(s, false) && Toggle(s) == s
  {
  }

  /**
   * A tap on the content of an open, unlocked menu: a down on the content, and
   * an up 100 ms later that moved less than the tap distance. closeSideMenu runs, exactly once: the menu is closed and the
   * listener hears exactly one onSideMenuClosed.
   */
  lemma TapOnContentClosesOnce(s: Layout, x: real, y: real, t: int, dx: real, dy: real, content: Rect)
    requires s.width > 0 && s.open && !s.locked && s.hasStateListener
    requires s.thresholds.tapDistanceMax <= s.thresholds.flingMinDistance
    requires Abs(dx) < s.thresholds.tapDistanceMax as real && Abs(dy) < s.thresholds.tapDistanceMax as real
    requires InContent(content, x + dx, y + dy)
    ensures
      var down := TouchEvent(Down, x, y, t);
      var up := TouchEvent(Up, x + dx, y + dy, t + 100);
      var r := Run(s, [Intercept(down, content, false), Touch(down, content, false), Touch(up, content, false)]);
      var closing := ClosingAnimation(s.factor, s.config.animationDuration, false);
      && !r.open
      && r.trace == s.trace + Cancellation(s.animation) + [AnimationStarted(closing), SideMenuClosed]
  {
    var down := TouchEvent(Down, x, y, t);
    var up := TouchEvent(Up, x + dx, y + dy, t + 100);
    var ops := [Intercept(down, content, false), Touch(down, content, false), Touch(up, content, false)];
    var s1 := Step(s, ops[0]);
    var s2 := Step(s1, ops[1]);
    assert s2 == s.(session := Session(x, y, t, s2.session.swipeValid, false, false));
    assert !IsFling(s2, x + dx, t + 100);
    assert IsTap(s2, x + dx, y + dy, t + 100);
    assert ClassifyRelease(s2, x + dx, y + dy, t + 100, content) == TapClose;
    var s3 := Step(s2, ops[2]);
    assert s3 == CloseSideMenu(s2).layout;
    assert Run(s, ops) == Run(s1, ops[1..]);
    assert Run(s1, ops[1..]) == Run(s2, ops[2..]);
    assert Run(s2, ops[2..]) == Run(s3, []);
  }

  /** No single call drops the animator handle once one is held */
  lemma StepKeepsHandle(s: Layout, op: Op)
    requires s.width > 0 && OpOk(op) && s.animation.Some?
    ensures Step(s, op).animation.Some?
  {
    match op
    case Touch(ev, content, sup) =>
      if !s.locked && ev.action == Up {
        match ClassifyRelease(s, ev.rawX, ev.rawY, ev.time, content)
        case Fling =>
        case Swipe(towardOpen) =>
        case TapClose =>
        case Unrecognised =>
      }
    case _ =>
  }

  /**
   * mAnimation is only ever set to null just before a new animator replaces
   * it, so once an animator has been started the layout holds a handle for
   * good. Combined with openSideMenu's contract, an open menu whose factor is
   * later pulled below 1 is never animated back by openSideMenu, and
   * symmetrically for closeSideMenu.
   */
  lemma {:induction false} HandleNeverCleared(s: Layout, ops: seq<Op>)
    requires s.width > 0 && OpsOk(ops) && s.animation.Some?
    ensures Run(s, ops).animation.Some?
    decreases |ops|
  {
    if ops != [] {
      StepKeepsHandle(s, ops[0]);
      assert OpsOk(ops[1..]) by {
        forall i | 0 <= i < |ops[1..]| ensures OpOk(ops[1..][i]) { assert ops[1..][i] == ops[i + 1]; }
      }
      HandleNeverCleared(Step(s, ops[0]), ops[1..]);
    }
  }

  /**
   * mTouchFlingActive outlives the touch sequence: after a fling has closed
   * the menu, a later programmatic openSideMenu still uses the decelerate
   * curve, until an intercepted down resets the flag.
   */
  lemma FlingCurvePersists(s: Layout, x: real, y: real, now: int, content: Rect)
    requires s.width > 0 && s.open && !s.locked && IsFling(s, x, now)
    ensures
      var flung := OnTouchEvent(s, TouchEvent(Up, x, y, now), content, false).layout;
      && !flung.open
      && OpenSideMenu(flung).result
      && OpenSideMenu(flung).layout.animation.value.curve == Decelerate
  {
  }

  /**
   * A swipe released below one half while the menu is already closed calls
   * closeSideMenuAnimate directly: the held animator is not cancelled, a new
   * one is started, and onSideMenuClosed is announced again.
   */
  lemma SwipeReleaseWhileClosedReannounces(s: Layout, x: real, y: real, now: int, content: Rect)
    requires s.width > 0 && !s.open && s.hasStateListener && s.session.swipeActive
    requires !IsFling(s, x, now) && FactorForTouch(s.open, s.session.downX, x, s.width) < 0.5
    ensures
      var r := OnRelease(s, x, y, now, content);
      && !r.open
      && r.trace == s.trace + [AnimationStarted(Closing(s)), SideMenuClosed]
  {
  }

  /**
   * The open-side release of a swipe: an open menu released at one half or
   * more gets openSideMenuAnimate directly, so the held animator is replaced
   * without a cancel and onSideMenuOpened is heard again.
   */
  lemma SwipeReleaseWhileOpenReannounces(s: Layout, x: real, y: real, now: int, content: Rect)
    requires s.width > 0 && s.open && s.hasStateListener && s.session.swipeActive
    requires !IsFling(s, x, now) && FactorForTouch(s.open, s.session.downX, x, s.width) >= 0.5
    ensures
      var r := OnRelease(s, x, y, now, content);
      && r.open
      && r.trace == s.trace + [AnimationStarted(Opening(s)), SideMenuOpened]
  {
  }

  /**
   * A fling on an open, unlocked menu runs closeSideMenu exactly once with
   * the fling flag set: one cancel of the held animator, one decelerating
   * closing animator, one onSideMenuClosed.
   */
  lemma FlingClosesOnce(s: Layout, x: real, y: real, now: int, content: Rect)
    requires s.width > 0 && s.open && !s.locked && IsFling(s, x, now)
    ensures
      var r := OnRelease(s, x, y, now, content);
      var flung := s.(session := s.session.(flingActive := true));
      && !r.open && r.session.flingActive
      && Closing(flung).curve == Decelerate
      && r.trace == s.trace + Cancellation(s.animation) + [AnimationStarted(Closing(flung))]
           + Notify(s.hasStateListener, SideMenuClosed)
  {
  }

  /** A fling on a closed, unlocked menu runs openSideMenu exactly once with the fling flag set */
  lemma FlingOpensOnce(s: Layout, x: real, y: real, now: int, content: Rect)
    requires s.width > 0 && !s.open && !s.locked && IsFling(s, x, now)
    ensures
      var r := OnRelease(s, x, y, now, content);
      var flung := s.(session := s.session.(flingActive := true));
      && r.open && r.session.flingActive
      && Opening(flung).curve == Decelerate
      && r.trace == s.trace + Cancellation(s.animation) + [AnimationStarted(Opening(flung))]
           + Notify(s.hasStateListener, SideMenuOpened)
  {
  }
}
