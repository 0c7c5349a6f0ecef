/** The orb controller: one record per navigation orb, kept in an array the
    handlers update in place, and the module-level `didSettle` flag. Window
    values, the random candidate centres of the initial placement and the
    per-frame jitter offsets are parameters. */
module Orbs {
  import opened Layout
  import opened Machine

  datatype Option<T> = None | Some(value: T)

  /** The inline `transform` of an orb: empty, or a jitter translation. */
  datatype Transform = Cleared | Translate(dx: real, dy: real)

  /** A candidate centre picked at random around the hero. */
  datatype Point = Point(x: real, y: real)

  /** A navigation target: label and destination. */
  datatype Target = Target(name: string, href: string)

  /** The measured size of an orb element (`offsetWidth`, `offsetHeight`). */
  datatype Size = Size(width: real, height: real)

  const PageLinks: seq<Target> := [
    Target("Index", "index.html"),
    Target("About", "about.html"),
    Target("Interests", "interests.html"),
    Target("Experience", "experience.html"),
    Target("Resume", "resume.html"),
    Target("Contact", "contact.html")
  ]

  /** What the controller reads and writes on one orb element: its link,
      size, `data-state`, `data-side`, inline `left`/`top` and `transform`. */
  datatype Orb = Orb(
    link: string, width: real, height: real,
    state: Phase, side: Option<Side>,
    left: real, top: real, transform: Transform)

  /** A freshly created orb: no state, no side, no inline position. */
  function NewOrb(t: Target, s: Size): (o: Orb)
    ensures o.state == Unplaced && o.side == None && o.transform == Cleared
    ensures o.link == t.href && o.width == s.width && o.height == s.height
  {
    Orb(t.href, s.width, s.height, Unplaced, None, 0.0, 0.0, Cleared)
  }

  /** Orb i after the rail layout: settled, on its side, at its clamped slot
      position; link, size and transform are left as they were. */
  function SettleOrb(o: Orb, i: nat, vp: Viewport): (r: Orb)
    ensures r.state == Settled
    ensures r.side == Some(if i < 3 then Left else Right)
    ensures r.left == SettledLeft(i, vp.innerWidth, o.width) && r.top == SettledTop(i, vp, o.height)
    ensures r.left >= 8.0 && r.top >= vp.scrollY + 20.0
    ensures vp.innerWidth - o.width - 8.0 >= 8.0 ==> r.left <= vp.innerWidth - o.width - 8.0
    ensures vp.scrollHeight - o.height - 20.0 >= vp.scrollY + 20.0 ==> r.top <= vp.scrollHeight - o.height - 20.0
    ensures vp.innerWidth - o.width >= 32.0 ==> r.left == (if i < 3 then 24.0 else vp.innerWidth - 24.0 - o.width)
    ensures vp.scrollY + 20.0 <= RailTop(i, vp) <= vp.scrollHeight - o.height - 20.0 ==> r.top == RailTop(i, vp)
    ensures r.link == o.link && r.width == o.width && r.height == o.height && r.transform == o.transform
  {
    o.(state := Settled, side := Some(SideOf(i)),
       left := SettledLeft(i, vp.innerWidth, o.width),
       top := SettledTop(i, vp, o.height))
  }

  /** An orb placed floating around the candidate centre p. */
  function PlaceOrb(o: Orb, vp: Viewport, p: Point): (r: Orb)
    ensures r.state == Floating
    ensures r.left == InitialEdge(vp.innerWidth, o.width, p.x) && r.top == InitialEdge(vp.innerHeight, o.height, p.y)
    ensures r.left >= 24.0 && r.top >= 24.0
    ensures vp.innerWidth - 24.0 - o.width >= 24.0 ==> r.left <= vp.innerWidth - 24.0 - o.width
    ensures vp.innerHeight - 24.0 - o.height >= 24.0 ==> r.top <= vp.innerHeight - 24.0 - o.height
    ensures r.link == o.link && r.width == o.width && r.height == o.height
    ensures r.side == o.side && r.transform == o.transform
  {
    o.(state := Floating,
       left := InitialEdge(vp.innerWidth, o.width, p.x),
       top := InitialEdge(vp.innerHeight, o.height, p.y))
  }

  /** An orb after the unsettle path: transform cleared, then placed
      floating again; its `data-side` is left as it was. */
  function UnsettleOrb(o: Orb, vp: Viewport, p: Point): (r: Orb)
    ensures r.state == Floating && r.transform == Cleared
    ensures r.link == o.link && r.width == o.width && r.height == o.height && r.side == o.side
    ensures r.left == InitialEdge(vp.innerWidth, o.width, p.x) && r.top == InitialEdge(vp.innerHeight, o.height, p.y)
    ensures r.left >= 24.0 && r.top >= 24.0
  {
    PlaceOrb(o.(state := Floating, transform := Cleared), vp, p)
  }

  class Controller {
    var didSettle: bool
    const orbs: array<Orb>
    /** The phase every orb is in. */
    ghost var phase: Phase

    ghost predicate Valid()
      reads this, orbs
    {
      forall i :: 0 <= i < orbs.Length ==> orbs[i].state == phase
    }

    ghost function Abstract(): Ctl
      reads this
    {
      Ctl(didSettle, phase)
    }

    /** One orb per target, not yet placed; the flag starts cleared. */
    constructor (targets: seq<Target>, sizes: seq<Size>)
      requires |sizes| == |targets|
      ensures Valid() && Abstract() == Initial && fresh(orbs)
      ensures orbs.Length == |targets|
      ensures forall i :: 0 <= i < |targets| ==> orbs[i] == NewOrb(targets[i], sizes[i])
    {
      didSettle := false;
      phase := Unplaced;
      orbs := new Orb[|targets|](i requires 0 <= i < |targets| => NewOrb(targets[i], sizes[i]));
    }

    /** Put every orb on its rail for the given viewport, one orb at a time
        in index order (the side, slot and clamp of each are SettleOrb's). */
    method SettleToSides(vp: Viewport)
      modifies this`phase, orbs
      ensures Valid() && phase == Settled
      ensures forall i :: 0 <= i < orbs.Length ==> orbs[i] == SettleOrb(old(orbs[i]), i, vp)
    {
      var i := 0;
      while i < orbs.Length
        invariant 0 <= i <= orbs.Length
        invariant forall k :: 0 <= k < i ==> orbs[k] == SettleOrb(old(orbs[k]), k, vp)
        invariant forall k :: i <= k < orbs.Length ==> orbs[k] == old(orbs[k])
      {
        orbs[i] := SettleOrb(orbs[i], i, vp);
        i := i + 1;
      }
      phase := Settled;
    }

    /** Place every orb floating, centred on its random candidate and
      clamped into the viewport. */
    method PlaceInitialRandom(vp: Viewport, pts: seq<Point>)
      requires |pts| == orbs.Length
      modifies this`phase, orbs
      ensures Valid() && phase == Floating
      ensures forall i :: 0 <= i < orbs.Length ==> orbs[i] == PlaceOrb(old(orbs[i]), vp, pts[i])
    {
      var i := 0;
      while i < orbs.Length
        invariant 0 <= i <= orbs.Length
        invariant forall k :: 0 <= k < i ==> orbs[k] == PlaceOrb(old(orbs[k]), vp, pts[k])
        invariant forall k :: i <= k < orbs.Length ==> orbs[k] == old(orbs[k])
      {
        var o := orbs[i];
        orbs[i] := o.(
          left := Clamp(24.0, vp.innerWidth - 24.0 - o.width, pts[i].x - o.width / 2.0),
          top := Clamp(24.0, vp.innerHeight - 24.0 - o.height, pts[i].y - o.height / 2.0),
          state := Floating);
        i := i + 1;
      }
      phase := Floating;
    }

    /** Mark every orb floating with no transform, then place them again. */
    method Unsettle(vp: Viewport, pts: seq<Point>)
      requires |pts| == orbs.Length
      modifies this`phase, orbs
      ensures Valid() && phase == Floating
      ensures forall i :: 0 <= i < orbs.Length ==> orbs[i] == UnsettleOrb(old(orbs[i]), vp, pts[i])
    {
      var i := 0;
      while i < orbs.Length
        invariant 0 <= i <= orbs.Length
        invariant forall k :: 0 <= k < i ==> orbs[k] == old(orbs[k]).(state := Floating, transform := Cleared)
        invariant forall k :: i <= k < orbs.Length ==> orbs[k] == old(orbs[k])
      {
        orbs[i] := orbs[i].(state := Floating, transform := Cleared);
        i := i + 1;
      }
      PlaceInitialRandom(vp, pts);
    }

    /** The scroll handler. The returned transition records what it did. */
    method OnScroll(vp: Viewport, pts: seq<Point>) returns (t: Transition)
      requires Valid() && |pts| == orbs.Length
      modifies this, orbs
      ensures Valid()
      ensures t == Decide(old(didSettle), vp.scrollY, vp.innerHeight)
      ensures Abstract() == Step(AsWritten, old(Abstract()), Scroll(vp.scrollY, vp.innerHeight))
      ensures t == Settle ==> forall i :: 0 <= i < orbs.Length ==> orbs[i] == SettleOrb(old(orbs[i]), i, vp)
      ensures t == Machine.Unsettle ==> forall i :: 0 <= i < orbs.Length ==> orbs[i] == UnsettleOrb(old(orbs[i]), vp, pts[i])
      ensures t == Stay ==> orbs[..] == old(orbs[..])
    {
      var threshold := Threshold(vp.innerHeight);
      if vp.scrollY > threshold && !didSettle {
        didSettle := true;
        SettleToSides(vp);
        t := Settle;
      } else if vp.scrollY <= threshold && didSettle {
        didSettle := false;
        Unsettle(vp, pts);
        t := Machine.Unsettle;
      } else {
        t := Stay;
      }
    }

    /** The resize handler: re-run the rail layout only when settled. */
    method OnResize(vp: Viewport)
      requires Valid()
      modifies this`phase, orbs
      ensures Valid() && didSettle == old(didSettle)
      ensures Abstract() == Step(AsWritten, old(Abstract()), Resize)
      ensures didSettle ==> forall i :: 0 <= i < orbs.Length ==> orbs[i] == SettleOrb(old(orbs[i]), i, vp)
      ensures !didSettle ==> orbs[..] == old(orbs[..])
    {
      if didSettle {
        SettleToSides(vp);
      }
    }

    /** The load handler as written: place the orbs floating whatever the
        flag says. */
    method OnLoadAsWritten(vp: Viewport, pts: seq<Point>)
      requires |pts| == orbs.Length
      modifies this`phase, orbs
      ensures Valid() && Abstract() == Step(AsWritten, old(Abstract()), Load)
      ensures forall i :: 0 <= i < orbs.Length ==> orbs[i] == PlaceOrb(old(orbs[i]), vp, pts[i])
    {
      PlaceInitialRandom(vp, pts);
    }

    /** The load handler as evidently intended: on the rails when a scroll
        has already settled the widget, floating otherwise. */
    method OnLoad(vp: Viewport, pts: seq<Point>)
      requires |pts| == orbs.Length
      modifies this`phase, orbs
      ensures Valid() && Abstract() == Step(Intended, old(Abstract()), Load)
      ensures Coherent(Abstract())
      ensures didSettle ==> forall i :: 0 <= i < orbs.Length ==> orbs[i] == SettleOrb(old(orbs[i]), i, vp)
      ensures !didSettle ==> forall i :: 0 <= i < orbs.Length ==> orbs[i] == PlaceOrb(old(orbs[i]), vp, pts[i])
    {
      if didSettle {
        SettleToSides(vp);
      } else {
        PlaceInitialRandom(vp, pts);
      }
    }

    /** One animation frame of orb i: a settled orb stops (nothing changes
        and no next frame is requested); otherwise its transform becomes the
        jitter offset and the next frame is requested. */
    method Frame(i: nat, dx: real, dy: real) returns (again: bool)
      requires i < orbs.Length
      modifies orbs
      ensures again <==> old(orbs[i].state) != Settled
      ensures again ==> orbs[..] == old(orbs[..])[i := old(orbs[i]).(transform := Translate(dx, dy))]
      ensures !again ==> orbs[..] == old(orbs[..])
    {
      if orbs[i].state == Settled {
        return false;
      }
      orbs[i] := orbs[i].(transform := Translate(dx, dy));
      again := true;
    }

    /** The click handler of orb i: the page it navigates to. */
    method Click(i: nat) returns (href: string)
      requires i < orbs.Length
      ensures href != []
      ensures orbs[i].link != [] ==> href == orbs[i].link
      ensures orbs[i].link == [] ==> href == "index.html"
    {
      href := ClickTarget(orbs[i].link);
    }
  }

  /** Six configured orbs: scrolling past 0.45 of the viewport puts orb 0 at
      the top of the left rail and orb 3 at the top of the right rail;
      scrolling back sets every orb floating in bounds; clicking orb 4
      navigates to its page. */
  method SixOrbScenario(pts: seq<Point>)
    requires |pts| == 6
  {
    var sizes := [Size(150.0, 150.0), Size(144.0, 144.0), Size(138.0, 138.0),
                  Size(132.0, 132.0), Size(126.0, 126.0), Size(120.0, 120.0)];
    var c := new Controller(PageLinks, sizes);
    var vp := Viewport(1280.0, 800.0, 0.0, 4000.0);
    c.OnLoadAsWritten(vp, pts);
    var t := c.OnScroll(vp.(scrollY := 400.0), pts);
    assert t == Settle;
    assert c.orbs[0].side == Some(Left) && c.orbs[0].left == 24.0;
    assert c.orbs[3].side == Some(Right) && c.orbs[3].left == 1280.0 - 24.0 - 132.0;
    assert c.orbs[0].top == c.orbs[3].top == 600.0;
    assert c.orbs[1].top == 720.0;
    t := c.OnScroll(vp.(scrollY := 500.0), pts);
    assert t == Stay;
    t := c.OnScroll(vp, pts);
    assert t == Machine.Unsettle;
    assert c.orbs[4].state == Floating && c.orbs[4].left >= 24.0 && c.orbs[4].left <= 1280.0 - 24.0 - 126.0;
    var href := c.Click(4);
    assert href == "resume.html";
  }
}
