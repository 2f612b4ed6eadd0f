/**
 * SlideSideMenuContentCardView: a CardView used as the content pane. It keeps
 * the last slide factor it was told about and two maxima in pixels, and
 * derives its elevation and corner radius from them, so that the card gains
 * shadow and rounded corners as the side menu opens. When it is given margin
 * layout parameters it shifts each margin outward by the shadow padding the
 * card adds on that side.
 *
 * The CardView's own state is represented by what this class pushes into it
 * (the elevation and radius values, the two flags set by init()) and by the
 * paddings it reports, which come in at construction.
 */
module ContentCard {
  import opened JavaNumerics
  import M = SideMenuModel

  /** The density-independent maxima init() converts to pixels */
  const DefaultMaxElevationDp: int := 7
  const DefaultMaxRadiusDp: int := 4

  /**
   * Utils.convertDPtoPixels: the DIP unit is scaled by the display density
   * and the float narrowed with (int). For a non-negative amount and density
   * the pixels are the scaled amount rounded down.
   */
  function DpToPixels(dp: int, density: real): (px: int)
    requires 0 <= dp && 0.0 <= density
    ensures 0 <= px && px as real <= dp as real * density < px as real + 1.0
  {
    Trunc(dp as real * density)
  }

  /** Four per-side integer distances, in pixels */
  datatype Insets = Insets(left: int, top: int, right: int, bottom: int)

  /**
   * `Math.round(max * factor)`: the value applyFactor pushes for a maximum at
   * a factor. It is the nearest integer to the exact product, it is 0 at a
   * closed menu and the maximum itself at a fully open one.
   */
  function Scaled(max: int, factor: real): (n: int)
    ensures max as real * factor - 0.5 < n as real <= max as real * factor + 0.5
    ensures factor == 0.0 ==> n == 0
    ensures factor == 1.0 ==> n == max
  {
    Round(max as real * factor)
  }

  /** For a factor in [0,1] and a non-negative maximum the value stays in [0, max] */
  lemma ScaledWithin(max: int, factor: real)
    requires 0 <= max && 0.0 <= factor <= 1.0
    ensures 0 <= Scaled(max, factor) <= max
  {
    var p := max as real * factor;
    assert 0.0 <= p by {
      assert 0.0 <= max as real;
    }
    assert p <= max as real by {
      assert max as real * factor <= max as real * 1.0;
    }
  }

  /** A larger factor never gives a smaller value: the shadow grows as the menu opens */
  lemma ScaledMonotone(max: int, f1: real, f2: real)
    requires 0 <= max && f1 <= f2
    ensures Scaled(max, f1) <= Scaled(max, f2)
  {
    var p1, p2 := max as real * f1, max as real * f2;
    assert p1 <= p2 by {
      assert max as real * (f2 - f1) >= 0.0;
      assert p2 - p1 == max as real * (f2 - f1);
    }
    assert (p1 + 0.5).Floor <= (p2 + 0.5).Floor;
  }

  /**
   * Every factor a layout in a valid state has broadcast to its content pane
   * gives this card an elevation and a radius within their maxima.
   */
  lemma BroadcastStaysWithinMaxima(s: M.Layout, i: int, maxElevation: int, maxRadius: int)
    requires M.Valid(s) && 0 <= i < |s.trace| && s.trace[i].ContentFactorUpdate?
    requires 0 <= maxElevation && 0 <= maxRadius
    ensures 0 <= Scaled(maxElevation, s.trace[i].factor) <= maxElevation
    ensures 0 <= Scaled(maxRadius, s.trace[i].factor) <= maxRadius
  {
    assert M.EffectOk(s.trace[i]);
    ScaledWithin(maxElevation, s.trace[i].factor);
    ScaledWithin(maxRadius, s.trace[i].factor);
  }

  /** The shadow padding the card adds on each side: its padding less its content padding */
  function ShadowPadding(padding: Insets, contentPadding: Insets): (r: Insets)
    ensures r.left + contentPadding.left == padding.left && r.top + contentPadding.top == padding.top
    ensures r.right + contentPadding.right == padding.right && r.bottom + contentPadding.bottom == padding.bottom
  {
    Insets(padding.left - contentPadding.left, padding.top - contentPadding.top,
           padding.right - contentPadding.right, padding.bottom - contentPadding.bottom)
  }

  /**
   * The margins setLayoutParams leaves in margin parameters of a card with
   * the given padding and content padding: each side is decreased by the
   * shadow on that side, so the shadow lies where the margin was and the
   * card's body keeps the requested position.
   */
  function Compensated(margins: Insets, padding: Insets, contentPadding: Insets): (r: Insets)
    ensures var shadow := ShadowPadding(padding, contentPadding);
      && r.left + shadow.left == margins.left && r.top + shadow.top == margins.top
      && r.right + shadow.right == margins.right && r.bottom + shadow.bottom == margins.bottom
  {
    Insets(margins.left - (padding.left - contentPadding.left), margins.top - (padding.top - contentPadding.top),
           margins.right - (padding.right - contentPadding.right), margins.bottom - (padding.bottom - contentPadding.bottom))
  }

  /**
   * The compensation is applied to the object passed in, so passing the same
   * parameters twice shifts the margins twice: a second pass leaves them as
   * they were after the first exactly when the card casts no shadow.
   */
  lemma CompensationRepeats(margins: Insets, padding: Insets, contentPadding: Insets)
    ensures var once := Compensated(margins, padding, contentPadding);
      Compensated(once, padding, contentPadding) == once <==> ShadowPadding(padding, contentPadding) == Insets(0, 0, 0, 0)
  {
    var once := Compensated(margins, padding, contentPadding);
    var twice := Compensated(once, padding, contentPadding);
    if twice == once {
      assert twice.left == once.left && twice.top == once.top;
      assert twice.right == once.right && twice.bottom == once.bottom;
    }
  }

  /** The ViewGroup.LayoutParams object handed to setLayoutParams */
  class LayoutParams {
    /** Whether the object is a ViewGroup.MarginLayoutParams */
    const hasMargins: bool
    var leftMargin: int
    var topMargin: int
    var rightMargin: int
    var bottomMargin: int

    function Margins(): Insets
      reads this
    {
      Insets(leftMargin, topMargin, rightMargin, bottomMargin)
    }

    constructor (marginParams: bool, margins: Insets)
      ensures hasMargins == marginParams && Margins() == margins
    {
      hasMargins := marginParams;
      leftMargin, topMargin, rightMargin, bottomMargin := margins.left, margins.top, margins.right, margins.bottom;
    }
  }

  class ContentCardView {
    var maxElevation: int
    var maxRadius: int
    var factor: real

    // What the card was last given through setCardElevation and setRadius
    var cardElevation: int
    var radius: int

    // The two CardView settings init() changes
    var preventCornerOverlap: bool
    var useCompatPadding: bool

    // getPadding*() and getContentPadding*()
    const padding: Insets
    const contentPadding: Insets

    // The parameters super.setLayoutParams stored
    var layoutParams: LayoutParams?

    /**
     * Any of the three constructors followed by init(): the maxima are
     * DefaultMaxElevationDp and DefaultMaxRadiusDp converted to pixels for
     * the display's density, the factor is 0, corner overlap prevention is
     * off and compat padding on. Elevation and radius keep the values the
     * CardView attributes gave them.
     */
    constructor (density: real, elevation: int, cornerRadius: int, cardPadding: Insets, cardContentPadding: Insets)
      requires 0.0 <= density
      ensures maxElevation == DpToPixels(DefaultMaxElevationDp, density)
      ensures maxRadius == DpToPixels(DefaultMaxRadiusDp, density) && factor == 0.0
      ensures cardElevation == elevation && radius == cornerRadius
      ensures !preventCornerOverlap && useCompatPadding
      ensures padding == cardPadding && contentPadding == cardContentPadding && layoutParams == null
    {
      padding, contentPadding := cardPadding, cardContentPadding;
      cardElevation, radius := elevation, cornerRadius;
      layoutParams := null;
      factor := 0.0;
      maxElevation := DpToPixels(DefaultMaxElevationDp, density);
      maxRadius := DpToPixels(DefaultMaxRadiusDp, density);
      preventCornerOverlap := false;
      useCompatPadding := true;
    }

    /** applyFactor: elevation and radius from the stored factor and maxima */
    method ApplyFactor()
      modifies this
      ensures cardElevation == Scaled(maxElevation, factor) && radius == Scaled(maxRadius, factor)
      ensures maxElevation == old(maxElevation) && maxRadius == old(maxRadius) && factor == old(factor)
      ensures preventCornerOverlap == old(preventCornerOverlap) && useCompatPadding == old(useCompatPadding)
      ensures layoutParams == old(layoutParams)
    {
      var elevationNow := Round(maxElevation as real * factor);
      cardElevation := elevationNow;
      var radiusNow := Round(maxRadius as real * factor);
      radius := radiusNow;
    }

    /** setMaxElevation: a new maximum, re-applied at the stored factor */
    method SetMaxElevation(elevationPx: int)
      modifies this
      ensures maxElevation == elevationPx && maxRadius == old(maxRadius) && factor == old(factor)
      ensures cardElevation == Scaled(elevationPx, old(factor)) && radius == Scaled(old(maxRadius), old(factor))
      ensures preventCornerOverlap == old(preventCornerOverlap) && useCompatPadding == old(useCompatPadding)
      ensures layoutParams == old(layoutParams)
    {
      maxElevation := elevationPx;
      ApplyFactor();
    }

    /** setMaxRadius: a new maximum, re-applied at the stored factor */
    method SetMaxRadius(radiusPx: int)
      modifies this
      ensures maxRadius == radiusPx && maxElevation == old(maxElevation) && factor == old(factor)
      ensures cardElevation == Scaled(old(maxElevation), old(factor)) && radius == Scaled(radiusPx, old(factor))
      ensures preventCornerOverlap == old(preventCornerOverlap) && useCompatPadding == old(useCompatPadding)
      ensures layoutParams == old(layoutParams)
    {
      maxRadius := radiusPx;
      ApplyFactor();
    }

    /** onSlideSideMenuFactorUpdate: store the factor the layout broadcast, then re-apply */
    method OnSlideSideMenuFactorUpdate(f: real)
      modifies this
      ensures factor == f && maxElevation == old(maxElevation) && maxRadius == old(maxRadius)
      ensures cardElevation == Scaled(old(maxElevation), f) && radius == Scaled(old(maxRadius), f)
      ensures preventCornerOverlap == old(preventCornerOverlap) && useCompatPadding == old(useCompatPadding)
      ensures layoutParams == old(layoutParams)
    {
      factor := f;
      ApplyFactor();
    }

    /**
     * setLayoutParams: margin parameters have each margin decreased by the
     * shadow padding on that side before they are stored; other parameters
     * are stored as they are.
     */
    method SetLayoutParams(params: LayoutParams)
      modifies this, params
      ensures layoutParams == params
      ensures params.hasMargins ==> params.Margins() == Compensated(old(params.Margins()), padding, contentPadding)
      ensures !params.hasMargins ==> params.Margins() == old(params.Margins())
      ensures maxElevation == old(maxElevation) && maxRadius == old(maxRadius) && factor == old(factor)
      ensures cardElevation == old(cardElevation) && radius == old(radius)
      ensures preventCornerOverlap == old(preventCornerOverlap) && useCompatPadding == old(useCompatPadding)
    {
      if params.hasMargins {
        params.bottomMargin := params.bottomMargin - (padding.bottom - contentPadding.bottom);
        params.leftMargin := params.leftMargin - (padding.left - contentPadding.left);
        params.rightMargin := params.rightMargin - (padding.right - contentPadding.right);
        params.topMargin := params.topMargin - (padding.top - contentPadding.top);
      }
      layoutParams := params;
    }
  }

  /**
   * A card that has not yet heard a factor shows no shadow and square corners
   * after both maxima are changed, whatever the new maxima.
   */
  method FreshCardStaysFlat(density: real, elevation: int, cornerRadius: int,
                            padding: Insets, contentPadding: Insets, newElevationMax: int, newRadiusMax: int)
    returns (card: ContentCardView)
    requires 0.0 <= density
    ensures card.factor == 0.0 && card.cardElevation == 0 && card.radius == 0
    ensures card.maxElevation == newElevationMax && card.maxRadius == newRadiusMax
  {
    card := new ContentCardView(density, elevation, cornerRadius, padding, contentPadding);
    card.SetMaxElevation(newElevationMax);
    assert card.cardElevation == 0 && card.radius == 0;
    card.SetMaxRadius(newRadiusMax);
  }
}
