/** The heads-up display's row of hearts: one per hit the plane can take,
    full for the hits left and dimmed for those taken. */
module HudDisplay {
  import opened Wrappers
  import opened PlaneEntity

  /** The grey tint of a lost heart. */
  const DimTint := 0x555555

  datatype Heart = Heart(x: real, tint: Option<int>, alpha: real)

  predicate IsFull(h: Heart)
  {
    h.tint.None? && h.alpha == 1.0
  }

  /** `clearTint(); setAlpha(1)`. */
  function Full(h: Heart): Heart
  {
    h.(tint := None, alpha := 1.0)
  }

  /** `setTint(0x555555); setAlpha(0.5)`. */
  function Dimmed(h: Heart): Heart
  {
    h.(tint := Some(DimTint), alpha := 0.5)
  }

  /** The number of full hearts shown. */
  function CountFull(hs: seq<Heart>): nat
  {
    if |hs| == 0 then 0
    else CountFull(hs[..|hs| - 1]) + (if IsFull(hs[|hs| - 1]) then 1 else 0)
  }

  /** A row whose first `left` hearts are exactly the full ones shows
      `left` full hearts, cut to the row's length and to zero. */
  lemma {:induction false} CountFullOfPrefix(hs: seq<Heart>, left: int)
    requires forall i :: 0 <= i < |hs| ==> (IsFull(hs[i]) <==> i < left)
    ensures CountFull(hs) == if left < 0 then 0 else if left > |hs| then |hs| else left
  {
    if |hs| > 0 {
      var init := hs[..|hs| - 1];
      assert forall i :: 0 <= i < |init| ==> init[i] == hs[i];
      CountFullOfPrefix(init, left);
    }
  }

  function Min(a: real, b: real): real { if a <= b then a else b }

  /** The gap between heart centres: the available width shared out over
      `maxHits - 1` gaps, but no more than 1.2 maximal hearts. */
  function HeartSpacing(maxHits: int, availableWidth: real, screenWidth: real): real
  {
    var totalSpacing := if maxHits > 1 then availableWidth / ((maxHits - 1) as real) else 0.0;
    Min(totalSpacing, (screenWidth / 20.0) * 1.2)
  }

  /** A heart is a twentieth of the screen, or smaller if the spacing is. */
  function HeartSize(spacing: real, screenWidth: real): real
  {
    Min(screenWidth / 20.0, spacing)
  }

  /** The x of the first heart: the row centred between `leftX` and
      `rightX`, shifted right by a twenty-fifth of the screen. */
  function StartX(leftX: real, rightX: real, maxHits: int, screenWidth: real): real
  {
    var spacing := HeartSpacing(maxHits, rightX - leftX, screenWidth);
    var totalHeartsWidth := HeartSize(spacing, screenWidth) + ((maxHits - 1) as real) * spacing;
    (leftX + rightX) / 2.0 - totalHeartsWidth / 2.0 + screenWidth / 25.0
  }

  /** With two or more hearts the centres from first to last never span
      more than the available width. */
  lemma HeartRowFits(maxHits: int, availableWidth: real, screenWidth: real)
    requires maxHits > 1
    ensures ((maxHits - 1) as real) * HeartSpacing(maxHits, availableWidth, screenWidth) <= availableWidth
  {
    var gaps := (maxHits - 1) as real;
    var spacing := HeartSpacing(maxHits, availableWidth, screenWidth);
    assert spacing <= availableWidth / gaps;
    assert gaps * (availableWidth / gaps) == availableWidth;
    assert gaps * spacing <= gaps * (availableWidth / gaps);
  }

  class HUD {
    const plane: Plane
    const hearts: array<Heart>

    /** Lays out one full heart per hit the plane can take, between
        `leftX` (the pause button's right edge) and `rightX` (the shoot
        button's left edge), then shows the hits already taken. */
    constructor(plane: Plane, leftX: real, rightX: real, screenWidth: real)
      ensures this.plane == plane && fresh(hearts)
      ensures hearts.Length == if plane.maxNumberOfHits < 0 then 0 else plane.maxNumberOfHits
      ensures forall i :: 0 <= i < hearts.Length ==>
        hearts[i].x == StartX(leftX, rightX, plane.maxNumberOfHits, screenWidth)
          + (i as real) * HeartSpacing(plane.maxNumberOfHits, rightX - leftX, screenWidth)
      ensures forall i :: 0 <= i < hearts.Length ==>
        (IsFull(hearts[i]) <==> i < plane.maxNumberOfHits - plane.numberOfHits)
    {
      this.plane := plane;
      var maxHits := plane.maxNumberOfHits;
      var n := if maxHits < 0 then 0 else maxHits;
      var spacing := HeartSpacing(maxHits, rightX - leftX, screenWidth);
      var startX := StartX(leftX, rightX, maxHits, screenWidth);
      hearts := new Heart[n](i => Heart(startX + (i as real) * spacing, None, 1.0));
      new;
      UpdateHearts();
    }

    /** Shows heart `i` full exactly when `i` is below the hits left. */
    method UpdateHearts()
      modifies hearts
      ensures forall i :: 0 <= i < hearts.Length ==>
        hearts[i] == if i < plane.maxNumberOfHits - plane.numberOfHits then Full(old(hearts[i])) else Dimmed(old(hearts[i]))
      ensures forall i :: 0 <= i < hearts.Length ==>
        (IsFull(hearts[i]) <==> i < plane.maxNumberOfHits - plane.numberOfHits)
      ensures var left := plane.maxNumberOfHits - plane.numberOfHits;
        CountFull(hearts[..]) == if left < 0 then 0 else if left > hearts.Length then hearts.Length else left
    {
      var heartsLeft := plane.maxNumberOfHits - plane.numberOfHits;
      for i := 0 to hearts.Length
        invariant forall j :: 0 <= j < i ==>
          hearts[j] == if j < heartsLeft then Full(old(hearts[j])) else Dimmed(old(hearts[j]))
        invariant forall j :: i <= j < hearts.Length ==> hearts[j] == old(hearts[j])
      {
        if i < heartsLeft {
          hearts[i] := Full(hearts[i]);
        } else {
          hearts[i] := Dimmed(hearts[i]);
        }
      }
      CountFullOfPrefix(hearts[..], heartsLeft);
    }
  }
}
