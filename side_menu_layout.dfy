/**
 * SlideSideMenuTransitionLayout as the object the Java code works on: the
 * fields of the class, updated in place by methods that follow the Java
 * statements. `Snapshot()` reads the fields as a SideMenuModel.Layout, and
 * every method is proved to move the snapshot exactly as the corresponding
 * function of SideMenuModel does, so that all the properties proved there
 * hold of this class.
 *
 * The two panes are represented by the transforms the layout pushes into them
 * (translation, scale, menu visibility) and by whether each is an update
 * listener; the state listener by whether one is registered. What the
 * framework supplies (the width, the panes' screen rectangles, the clock, the
 * super implementations' answers) comes in as fields or parameters.
 */
module SideMenuLayout {
  import opened JavaNumerics
  import M = SideMenuModel

  class TransitionLayout {
    // Touch settings derived by init() from density-independent constants
    const tapDistanceMax: int
    const swipeDistanceMin: int
    const swipeDistanceInvalidMax: int
    const touchAreaSize: int
    const flingMinDistance: int

    // Whether each pane implements SlideSideMenuUpdateListener
    const contentListens: bool
    const menuListens: bool

    var isLocked: bool

    // Animation settings
    var animationDuration: real
    var contentPeekPercent: real
    var contentPeekWidth: M.Option<int>
    var contentPeekSizePercent: real
    var menuStartSizePercent: real

    // getWidth()
    var width: int

    // Cached values for animation
    var contentTranslationX: int
    var contentScaleDiff: real
    var menuScaleDiff: real

    var hasStateListener: bool

    var sideMenuOpen: bool
    var sideMenuAnimation: real
    var animation: M.Option<M.Animation>

    var touchDownX: real
    var touchDownY: real
    var touchDownTimestamp: int
    var touchSwipeValid: bool
    var touchSwipeActive: bool
    var touchFlingActive: bool

    // What the panes currently show
    var panes: M.Transforms

    // The listener calls, animator starts and cancels, in order
    var trace: seq<M.Effect>

    ghost function Snapshot(): M.Layout
      reads this
    {
      M.Layout(
        M.Thresholds(tapDistanceMax, swipeDistanceMin, swipeDistanceInvalidMax, touchAreaSize, flingMinDistance),
        M.Config(animationDuration, contentPeekWidth, contentPeekPercent, contentPeekSizePercent, menuStartSizePercent),
        width,
        M.Geometry(contentTranslationX, contentScaleDiff, menuScaleDiff),
        isLocked, hasStateListener, contentListens, menuListens,
        sideMenuOpen, sideMenuAnimation, animation,
        M.Session(touchDownX, touchDownY, touchDownTimestamp, touchSwipeValid, touchSwipeActive, touchFlingActive),
        panes,
        trace)
    }

    /** The constructor and init(), followed by onFinishInflate with both panes present */
    constructor (th: M.Thresholds, contentIsListener: bool, menuIsListener: bool)
      ensures Snapshot() == M.Inflated(th, contentIsListener, menuIsListener)
    {
      tapDistanceMax := th.tapDistanceMax;
      swipeDistanceMin := th.swipeDistanceMin;
      swipeDistanceInvalidMax := th.swipeDistanceInvalidMax;
      touchAreaSize := th.touchAreaSize;
      flingMinDistance := th.flingMinDistance;
      contentListens := contentIsListener;
      menuListens := menuIsListener;
      isLocked := false;
      animationDuration := M.DefaultAnimationDuration;
      contentPeekPercent := M.DefaultContentPeekDistancePercent;
      contentPeekWidth := M.None;
      contentPeekSizePercent := M.DefaultContentPeekSizePercent;
      menuStartSizePercent := M.DefaultMenuStartSizePercent;
      width := 0;
      contentTranslationX, contentScaleDiff, menuScaleDiff := 0, 0.0, 0.0;
      hasStateListener := false;
      sideMenuOpen, sideMenuAnimation, animation := false, 0.0, M.None;
      touchDownX, touchDownY, touchDownTimestamp := 0.0, 0.0, 0;
      touchSwipeValid, touchSwipeActive, touchFlingActive := false, false, false;
      panes := M.Transforms(0.0, 1.0, 1.0, true);
      trace := [];
      new;
      SyncContentContainerState();
    }

    /** The first statement of calculateValues: a fixed peek width takes precedence over the percentage */
    static method ContentTranslationFor(w: int, c: M.Config) returns (t: int)
      ensures t == M.ComputeGeometry(w, c).translationX
    {
      if c.contentPeekWidth.Some? {
        t := w - c.contentPeekWidth.value;
      } else {
        t := Trunc(w as real - w as real * c.contentPeekPercent);
      }
    }

    method CalculateValues(w: int)
      modifies this
      ensures Snapshot() == M.CalculateValues(old(Snapshot()), w)
    {
      var c := M.Config(animationDuration, contentPeekWidth, contentPeekPercent, contentPeekSizePercent, menuStartSizePercent);
      var t := ContentTranslationFor(w, c);
      contentTranslationX := t;
      contentScaleDiff := 1.0 - contentPeekSizePercent;
      menuScaleDiff := menuStartSizePercent - 1.0;
    }

    method OnSizeChanged(w: int)
      modifies this
      ensures Snapshot() == M.OnSizeChanged(old(Snapshot()), w)
    {
      width := w;
      CalculateValues(w);
    }

    method SetLocked(locked: bool)
      modifies this
      ensures Snapshot() == old(Snapshot()).(locked := locked)
    {
      isLocked := locked;
    }

    method SetContentPeekDistanceWidth(peekWidth: M.Option<int>)
      modifies this
      ensures Snapshot() == M.SetContentPeekDistanceWidth(old(Snapshot()), peekWidth)
    {
      contentPeekWidth := peekWidth;
      CalculateValues(width);
    }

    method SetContentPeekDistancePercent(percent: real)
      modifies this
      ensures Snapshot() == M.SetContentPeekDistancePercent(old(Snapshot()), percent)
    {
      contentPeekWidth := M.None;
      contentPeekPercent := percent;
      CalculateValues(width);
    }

    method SetContentPeekSizePercent(percent: real)
      modifies this
      ensures Snapshot() == M.SetContentPeekSizePercent(old(Snapshot()), percent)
    {
      contentPeekSizePercent := percent;
      CalculateValues(width);
    }

    method SetMenuSizePercent(percent: real)
      modifies this
      ensures Snapshot() == M.SetMenuSizePercent(old(Snapshot()), percent)
    {
      menuStartSizePercent := percent;
      CalculateValues(width);
    }

    method SetSideMenuStateListener(present: bool)
      modifies this
      ensures Snapshot() == old(Snapshot()).(hasStateListener := present)
    {
      hasStateListener := present;
    }

    method SetAnimationDuration(duration: int)
      modifies this
      ensures Snapshot() == M.SetAnimationDuration(old(Snapshot()), duration)
    {
      animationDuration := duration as real;
    }

    method SyncContentContainerState()
      modifies this
      ensures Snapshot() == M.SyncContentContainerState(old(Snapshot()))
    {
      panes := panes.(menuVisible := sideMenuAnimation != 0.0);
      if contentListens {
        trace := trace + [M.ContentFactorUpdate(sideMenuAnimation)];
      }
      if menuListens {
        trace := trace + [M.MenuFactorUpdate(sideMenuAnimation)];
      }
    }

    /** The clamping at the head of setSideMenuAnimation */
    static method ClampFactor(factor: real) returns (f: real)
      ensures f == M.Clamp(factor)
    {
      f := factor;
      if f < 0.0 {
        f := 0.0;
      } else if f > 1.0 {
        f := 1.0;
      }
    }

    /** The middle of setSideMenuAnimation: store the factor and pose both panes */
    method ApplyFactor(f: real)
      modifies this
      ensures Snapshot() == old(Snapshot()).(factor := f, view := M.Pose(old(Snapshot()).geometry, f).(menuVisible := old(panes.menuVisible)))
    {
      sideMenuAnimation := f;
      // Animate content
      panes := panes.(contentTranslationX := contentTranslationX as real * f);
      var contentScaleNow := 1.0 - contentScaleDiff * f;
      panes := panes.(contentScale := contentScaleNow);
      // Animate side menu
      var menuScaleNow := 1.0 + menuScaleDiff * (1.0 - f);
      panes := panes.(menuScale := menuScaleNow);
    }

    method SetSideMenuAnimation(factor: real)
      modifies this
      ensures Snapshot() == M.SetSideMenuAnimation(old(Snapshot()), factor)
    {
      ghost var s := Snapshot();
      var f := ClampFactor(factor);
      if sideMenuAnimation == 0.0 && f > 0.0 {
        if hasStateListener {
          trace := trace + [M.SideMenuFirstReveal];
        }
      }
      assert Snapshot() == s.(trace := s.trace + M.Notify(s.hasStateListener && s.factor == 0.0 && f > 0.0, M.SideMenuFirstReveal));
      ApplyFactor(f);
      SyncContentContainerState();
    }

    method OpenSideMenuAnimate()
      modifies this
      ensures Snapshot() == M.OpenSideMenuAnimate(old(Snapshot()))
    {
      ghost var s := Snapshot();
      var curve := if touchFlingActive then M.Decelerate else M.AccelerateDecelerate;
      var a := M.Animation(sideMenuAnimation, 1.0, Trunc((1.0 - sideMenuAnimation) * animationDuration), curve);
      assert a == M.Opening(s);
      animation := M.Some(a);
      trace := trace + [M.AnimationStarted(a)];
      if hasStateListener {
        trace := trace + [M.SideMenuOpened];
      }
      assert trace == s.trace + [M.AnimationStarted(a)] + M.Notify(hasStateListener, M.SideMenuOpened);
    }

    method CloseSideMenuAnimate()
      modifies this
      ensures Snapshot() == M.CloseSideMenuAnimate(old(Snapshot()))
    {
      ghost var s := Snapshot();
      var curve := if touchFlingActive then M.Decelerate else M.AccelerateDecelerate;
      var a := M.Animation(sideMenuAnimation, 0.0, Trunc(sideMenuAnimation * animationDuration), curve);
      assert a == M.Closing(s);
      animation := M.Some(a);
      trace := trace + [M.AnimationStarted(a)];
      if hasStateListener {
        trace := trace + [M.SideMenuClosed];
      }
      assert trace == s.trace + [M.AnimationStarted(a)] + M.Notify(hasStateListener, M.SideMenuClosed);
    }

    /** `mAnimation.cancel(); mAnimation = null;` when a handle is held */
    method CancelAnimation()
      modifies this
      ensures Snapshot() == M.CancelAnimation(old(Snapshot()))
    {
      if animation.Some? {
        trace := trace + [M.AnimationCancelled(animation.value)];
        animation := M.None;
      }
    }

    method OpenSideMenu() returns (changed: bool)
      modifies this
      ensures M.Outcome(Snapshot(), changed) == M.OpenSideMenu(old(Snapshot()))
    {
      ghost var s := Snapshot();
      if sideMenuOpen {
        if sideMenuAnimation < 1.0 && animation.None? {
          OpenSideMenuAnimate();
        }
        return false;
      }
      if isLocked {
        return false;
      }
      CancelAnimation();
      sideMenuOpen := true;
      OpenSideMenuAnimate();
      return true;
    }

    method CloseSideMenu() returns (changed: bool)
      modifies this
      ensures M.Outcome(Snapshot(), changed) == M.CloseSideMenu(old(Snapshot()))
    {
      ghost var s := Snapshot();
      if !sideMenuOpen {
        if sideMenuAnimation > 0.0 && animation.None? {
          CloseSideMenuAnimate();
        }
        return false;
      }
      if isLocked {
        return false;
      }
      CancelAnimation();
      sideMenuOpen := false;
      CloseSideMenuAnimate();
      return true;
    }

    method Toggle()
      modifies this
      ensures Snapshot() == M.Toggle(old(Snapshot()))
    {
      if sideMenuOpen {
        var _ := CloseSideMenu();
      } else {
        var _ := OpenSideMenu();
      }
    }

    /** getFactorForTouch */
    method GetFactorForTouch(x: real) returns (factor: real)
      requires width > 0
      ensures factor == (if sideMenuOpen then 1.0 else 0.0) + M.SwipeDistanceFactor * (x - touchDownX) / width as real
    {
      var viewWidth := width;
      var swipeDistance := (if sideMenuOpen then touchDownX - x else x - touchDownX) * M.SwipeDistanceFactor;
      factor := swipeDistance / viewWidth as real;
      if sideMenuOpen {
        factor := 1.0 - factor;
      }
    }

    /** inContentContainer, with the content pane's screen rectangle */
    method InContentContainer(x: real, y: real, content: M.Rect) returns (inside: bool)
      ensures inside == M.InContent(content, x, y)
    {
      var rx, ry := Trunc(x), Trunc(y);
      inside := !(rx < content.left || rx > content.left + content.width
                  || ry < content.top || ry > content.top + content.height);
    }

    /** Where and when the touch went down, as both ACTION_DOWN branches record it */
    method RecordTouchDown(x: real, y: real, now: int)
      modifies this
      ensures Snapshot() == old(Snapshot()).(session := old(Snapshot()).session.(downX := x, downY := y, downTime := now))
    {
      touchDownTimestamp := now;
      touchDownX := x;
      touchDownY := y;
    }

    /** The ACTION_DOWN branch of onInterceptTouchEvent: a new touch session */
    method InterceptDown(x: real, y: real, now: int, content: M.Rect) returns (shouldIntercept: bool)
      modifies this
      ensures
        var onContent := M.InContent(content, x, y);
        && Snapshot() == old(Snapshot()).(session := M.Session(x, y, now,
             (old(sideMenuOpen) && onContent) || x <= touchAreaSize as real, false, false))
        && shouldIntercept == (old(sideMenuOpen) && onContent)
    {
      RecordTouchDown(x, y, now);
      var onContent := InContentContainer(x, y, content);
      var valid := (sideMenuOpen && onContent) || touchDownX <= touchAreaSize as real;
      touchSwipeValid, touchSwipeActive, touchFlingActive := valid, false, false;
      shouldIntercept := sideMenuOpen && onContent;
    }

    /** The ACTION_MOVE branch of onInterceptTouchEvent */
    method InterceptMove(x: real, y: real) returns (shouldIntercept: bool)
      modifies this
      ensures old(touchSwipeValid) && Abs(y - touchDownY) > swipeDistanceInvalidMax as real ==>
        Snapshot() == old(Snapshot()).(session := old(Snapshot()).session.(swipeValid := false)) && !shouldIntercept
      ensures old(touchSwipeValid) && Abs(y - touchDownY) <= swipeDistanceInvalidMax as real ==>
        Snapshot() == old(Snapshot()) && shouldIntercept == (Abs(x - touchDownX) > swipeDistanceMin as real)
      ensures !old(touchSwipeValid) ==> Snapshot() == old(Snapshot()) && !shouldIntercept
    {
      shouldIntercept := false;
      if !touchSwipeValid {
        return;
      }
      if Abs(y - touchDownY) > swipeDistanceInvalidMax as real {
        touchSwipeValid := false;
      } else {
        shouldIntercept := Abs(x - touchDownX) > swipeDistanceMin as real;
      }
    }

    /** onInterceptTouchEvent; `superIntercepts` is what the FrameLayout implementation answers */
    method OnInterceptTouchEvent(ev: M.TouchEvent, content: M.Rect, superIntercepts: bool) returns (intercept: bool)
      modifies this
      ensures M.Outcome(Snapshot(), intercept) == M.OnInterceptTouchEvent(old(Snapshot()), ev, content, superIntercepts)
    {
      if isLocked {
        return superIntercepts;
      }
      var shouldIntercept := false;
      match ev.action {
        case Down =>
          shouldIntercept := InterceptDown(ev.rawX, ev.rawY, ev.time, content);
        case Move =>
          shouldIntercept := InterceptMove(ev.rawX, ev.rawY);
        case _ =>
      }
      return shouldIntercept || superIntercepts;
    }

    /** The ACTION_MOVE branch of onTouchEvent */
    method TouchMove(x: real, y: real)
      requires width > 0
      modifies this
      ensures Snapshot() == M.TouchMove(old(Snapshot()), x, y)
    {
      if !touchSwipeActive {
        if !touchSwipeValid {
          return;
        }
        if Abs(y - touchDownY) > swipeDistanceInvalidMax as real {
          touchSwipeValid := false;
          return;
        } else {
          touchSwipeActive := Abs(x - touchDownX) > swipeDistanceMin as real;
        }
      }
      if touchSwipeActive {
        var factor := GetFactorForTouch(x);
        SetSideMenuAnimation(factor);
      }
    }

    /** The swipe section of the ACTION_UP branch */
    method ReleaseSwipe(x: real)
      requires width > 0
      modifies this
      ensures Snapshot() == M.SettleSwipe(old(Snapshot()), M.FactorForTouch(old(sideMenuOpen), old(touchDownX), x, old(width)) >= 0.5)
    {
      var factor := GetFactorForTouch(x);
      if factor < 0.5 {
        if sideMenuOpen {
          var _ := CloseSideMenu();
        } else {
          CloseSideMenuAnimate();
        }
      } else {
        if !sideMenuOpen {
          var _ := OpenSideMenu();
        } else {
          OpenSideMenuAnimate();
        }
      }
    }

    /** The ACTION_UP branch of onTouchEvent, released at time `now` */
    method TouchUp(x: real, y: real, now: int, content: M.Rect)
      requires width > 0
      modifies this
      ensures Snapshot() == M.OnRelease(old(Snapshot()), x, y, now, content)
    {
      // Support fling
      if now - touchDownTimestamp < M.TouchFlingMaxDuration {
        if sideMenuOpen {
          if touchDownX - x > flingMinDistance as real {
            touchFlingActive := true;
            var _ := CloseSideMenu();
            return;
          }
        } else {
          if x - touchDownX > flingMinDistance as real {
            touchFlingActive := true;
            var _ := OpenSideMenu();
            return;
          }
        }
      }
      // Support swipe
      if touchSwipeActive {
        ReleaseSwipe(x);
        return;
      }
      // Support tap
      if now - touchDownTimestamp < M.TouchTapDurationMax
         && Abs(touchDownX - x) < tapDistanceMax as real
         && Abs(touchDownY - y) < tapDistanceMax as real
      {
        var onContent := InContentContainer(x, y, content);
        if sideMenuOpen && onContent {
          var _ := CloseSideMenu();
          return;
        }
      }
    }

    /** onTouchEvent; `superHandles` is what the FrameLayout implementation answers */
    method OnTouchEvent(ev: M.TouchEvent, content: M.Rect, superHandles: bool) returns (handled: bool)
      requires width > 0
      modifies this
      ensures M.Outcome(Snapshot(), handled) == M.OnTouchEvent(old(Snapshot()), ev, content, superHandles)
    {
      if isLocked {
        return superHandles;
      }
      var x, y := ev.rawX, ev.rawY;
      match ev.action {
        case Down =>
          RecordTouchDown(x, y, ev.time);
        case Move =>
          TouchMove(x, y);
        case Up =>
          TouchUp(x, y, ev.time, content);
        case OtherAction =>
      }
      return true;
    }
  }
}
