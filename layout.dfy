/** Geometry of the orb widget: the clamp used for every placement, the rail
    side and slot of each orb, the vertical spacing of a rail, the clamped
    positions of settled and freshly placed orbs, and the click fallback.
    Positions are CSS pixels as exact reals. */
module Layout {

  function Min(a: real, b: real): real { if a <= b then a else b }
  function Max(a: real, b: real): real { if a >= b then a else b }

  /** `max(lo, min(hi, x))`: never below `lo`; when the window [lo, hi] is
      empty the lower bound wins. */
  function Clamp(lo: real, hi: real, x: real): (r: real)
    ensures lo <= r
    ensures lo <= hi ==> r <= hi
    ensures lo <= x <= hi ==> r == x
    ensures x < lo ==> r == lo
    ensures lo <= hi && hi < x ==> r == hi
    ensures hi < lo ==> r == lo
    ensures r == x || r == lo || r == hi
  {
    Max(lo, Min(hi, x))
  }

  // ---------------------------------------------------------------------
  // Rails: the side and the slot of orb i

  datatype Side = Left | Right

  /** The first three orbs go to the left rail, every other orb to the right. */
  function SideOf(i: nat): (s: Side)
    ensures s == Left <==> i < 3
  {
    if i < 3 then Left else Right
  }

  /** The position of orb i along its rail, counted from the top. */
  function SlotOf(i: nat): (slot: nat)
    ensures slot <= i
    ensures i < 6 ==> slot < 3
    ensures i == slot + (if SideOf(i) == Left then 0 else 3)
  {
    if i < 3 then i else i - 3
  }

  /** No two orbs share a slot on the same rail. */
  lemma SlotsDistinct(i: nat, j: nat)
    requires i != j && SideOf(i) == SideOf(j)
    ensures SlotOf(i) != SlotOf(j)
  {
  }

  /** The slots occupied on `side` by a widget of n orbs. */
  function RailSlots(n: nat, side: Side): set<nat> {
    set i: nat | i < n && SideOf(i) == side :: SlotOf(i)
  }

  /** The left rail holds slots 0 .. min(n, 3) - 1 and the right rail holds
      slots 0 .. n - 4: with more than six orbs the right rail keeps growing
      while the left one stays at three. */
  lemma RailSlotsOf(n: nat)
    ensures forall k: nat :: k in RailSlots(n, Left) <==> k < n && k < 3
    ensures forall k: nat :: k in RailSlots(n, Right) <==> k + 3 < n
  {
    forall k: nat | k < n && k < 3
      ensures k in RailSlots(n, Left)
    {
      assert SideOf(k) == Left && SlotOf(k) == k;
    }
    forall k: nat | k + 3 < n
      ensures k in RailSlots(n, Right)
    {
      assert SideOf(k + 3) == Right && SlotOf(k + 3) == k;
    }
  }

  /** With the six configured pages each rail gets slots 0, 1 and 2, each
      exactly once (distinctness is SlotsDistinct). */
  lemma SixOrbRails()
    ensures RailSlots(6, Left) == {0, 1, 2}
    ensures RailSlots(6, Right) == {0, 1, 2}
  {
    RailSlotsOf(6);
  }

  // ---------------------------------------------------------------------
  // Viewport and settled positions

  /** The window values the controller reads: `innerWidth`, `innerHeight`,
      `scrollY` and `document.body.scrollHeight`. */
  datatype Viewport = Viewport(innerWidth: real, innerHeight: real, scrollY: real, scrollHeight: real)

  /** Vertical distance between consecutive rail slots: 120px, or a sixth of
      the viewport height when that is smaller. */
  function Gap(innerHeight: real): (g: real)
    ensures g <= 120.0 && g <= innerHeight / 6.0
    ensures g == 120.0 || g == innerHeight / 6.0
    ensures innerHeight > 0.0 ==> g > 0.0
  {
    Min(120.0, innerHeight / 6.0)
  }

  /** Top of slot 0: a quarter of the viewport below the current scroll offset. */
  function StartY(vp: Viewport): (y: real)
    ensures 4.0 * (y - vp.scrollY) == vp.innerHeight
    ensures vp.innerHeight >= 0.0 ==> y >= vp.scrollY
  {
    vp.scrollY + vp.innerHeight * 25.0 / 100.0
  }

  /** The top of orb i before clamping. */
  function RailTop(i: nat, vp: Viewport): (y: real)
    ensures SlotOf(i) == 0 ==> y == StartY(vp)
    ensures vp.innerHeight >= 0.0 ==> StartY(vp) <= y
    ensures vp.innerHeight >= 0.0 ==> y <= StartY(vp) + SlotOf(i) as real * 120.0
  {
    var g := Gap(vp.innerHeight);
    assert vp.innerHeight >= 0.0 ==> 0.0 <= SlotOf(i) as real * g <= SlotOf(i) as real * 120.0 by {
      if vp.innerHeight >= 0.0 {
        ScaledBounds(SlotOf(i), g);
        ScaledBounds(SlotOf(i), 120.0 - g);
      }
    }
    StartY(vp) + SlotOf(i) as real * g
  }

  /** n copies of a non-negative g add up to something non-negative, and
      to at least g when there is one copy or more. */
  lemma ScaledBounds(n: nat, g: real)
    requires g >= 0.0
    ensures 0.0 <= n as real * g
    ensures n >= 1 ==> g <= n as real * g
  {
  }

  /** On a non-degenerate viewport the unclamped tops on one rail strictly
      increase with the slot, so orbs on one rail never overlap before the clamp. */
  lemma RailTopsIncrease(i: nat, j: nat, vp: Viewport)
    requires vp.innerHeight > 0.0
    requires SideOf(i) == SideOf(j) && i < j
    ensures RailTop(i, vp) < RailTop(j, vp)
  {
    var g := Gap(vp.innerHeight);
    var d: nat := SlotOf(j) - SlotOf(i);
    ScaledBounds(d, g);
    assert d as real * g > 0.0;
    assert RailTop(j, vp) - RailTop(i, vp) == d as real * g;
  }

  /** The target left edge before clamping: 24px from the left edge on the
      left rail, the orb's right edge 24px from the right edge on the right rail. */
  function RailLeft(i: nat, innerWidth: real, width: real): (x: real)
    ensures SideOf(i) == Left ==> x == 24.0
    ensures SideOf(i) == Right ==> innerWidth - (x + width) == 24.0
  {
    if SideOf(i) == Left then 24.0 else innerWidth - 24.0 - width
  }

  /** The settled left edge, clamped to [8, innerWidth - width - 8]. */
  function SettledLeft(i: nat, innerWidth: real, width: real): (r: real)
    ensures r >= 8.0
    ensures innerWidth - width - 8.0 >= 8.0 ==> r <= innerWidth - width - 8.0
    ensures innerWidth - width >= 32.0 ==> r == RailLeft(i, innerWidth, width)
    ensures innerWidth - width < 16.0 ==> r == 8.0
  {
    Clamp(8.0, innerWidth - width - 8.0, RailLeft(i, innerWidth, width))
  }

  /** The settled top, clamped to [scrollY + 20, scrollHeight - height - 20];
      the lower bound wins when the page is too short. */
  function SettledTop(i: nat, vp: Viewport, height: real): (r: real)
    ensures r >= vp.scrollY + 20.0
    ensures vp.scrollHeight - height - 20.0 >= vp.scrollY + 20.0 ==> r <= vp.scrollHeight - height - 20.0
    ensures vp.scrollY + 20.0 <= RailTop(i, vp) <= vp.scrollHeight - height - 20.0 ==> r == RailTop(i, vp)
  {
    Clamp(vp.scrollY + 20.0, vp.scrollHeight - height - 20.0, RailTop(i, vp))
  }

  // ---------------------------------------------------------------------
  // Initial placement around the hero

  /** One coordinate of an orb centred on the candidate coordinate c, kept
      at least 24px inside both edges of a viewport `extent` wide (or high)
      when the orb of that `size` fits; the same rule serves `left` and `top`. */
  function InitialEdge(extent: real, size: real, c: real): (r: real)
    ensures r >= 24.0
    ensures extent - 24.0 - size >= 24.0 ==> r <= extent - 24.0 - size
    ensures 24.0 <= c - size / 2.0 <= extent - 24.0 - size ==> r == c - size / 2.0
  {
    Clamp(24.0, extent - 24.0 - size, c - size / 2.0)
  }

  // ---------------------------------------------------------------------
  // Navigation

  /** Where a click navigates: the orb's link, or the home page when the
      link is empty. */
  function ClickTarget(link: string): (href: string)
    ensures href != []
    ensures link != [] ==> href == link
    ensures link == [] ==> href == "index.html"
  {
    if link != [] then link else "index.html"
  }
}
