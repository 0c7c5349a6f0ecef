/** The widget's two-state machine, abstracted from the orbs themselves:
    the module-level `didSettle` flag and the phase every orb is in.
    Scroll events decide a transition from the flag and the threshold;
    resize and load events re-lay the orbs out without deciding anything. */
module Machine {

  /** The `data-state` of an orb: none yet, `floating` or `settled`. */
  datatype Phase = Unplaced | Floating | Settled

  /** What one scroll event did. */
  datatype Transition = Settle | Unsettle | Stay

  /** The scroll offset beyond which the orbs settle: 0.45 of the viewport height. */
  function Threshold(innerHeight: real): (r: real)
    ensures 20.0 * r == 9.0 * innerHeight
    ensures innerHeight > 0.0 ==> 0.0 < r < innerHeight
  {
    innerHeight * 45.0 / 100.0
  }

  /** The scroll handler's decision: settle when past the threshold and not
      yet settled, unsettle when the offset is back at or below it and
      settled, else nothing. */
  function Decide(didSettle: bool, scrollY: real, innerHeight: real): (t: Transition)
    ensures t == Settle <==> scrollY > Threshold(innerHeight) && !didSettle
    ensures t == Unsettle <==> scrollY <= Threshold(innerHeight) && didSettle
    ensures t == Stay <==> (scrollY > Threshold(innerHeight) <==> didSettle)
  {
    var threshold := Threshold(innerHeight);
    if scrollY > threshold && !didSettle then Settle
    else if scrollY <= threshold && didSettle then Unsettle
    else Stay
  }

  datatype Event = Scroll(scrollY: real, innerHeight: real) | Resize | Load

  /** The controller's state as far as the machine is concerned. */
  datatype Ctl = Ctl(didSettle: bool, phase: Phase)

  /** Before the page's load event: unsettled, orbs not yet placed. */
  const Initial: Ctl := Ctl(false, Unplaced)

  /** The flag agrees with the orbs: settled exactly when every orb is. */
  predicate Coherent(c: Ctl) {
    c.didSettle <==> c.phase == Settled
  }

  /** The state after a transition has run: a fired transition leaves the
      flag and the orbs in agreement, Stay leaves everything as it was. */
  function Fire(c: Ctl, t: Transition): (c': Ctl)
    ensures t == Stay ==> c' == c
    ensures t != Stay ==> Coherent(c') && c'.didSettle == (t == Settle)
    ensures t == Unsettle ==> c'.phase == Floating
  {
    match t
    case Settle => Ctl(true, Settled)
    case Unsettle => Ctl(false, Floating)
    case Stay => c
  }

  /** The load handler as written: place every orb floating near the hero,
      whatever the flag says. */
  function AfterLoadAsWritten(c: Ctl): (c': Ctl)
    ensures c'.didSettle == c.didSettle && c'.phase == Floating
  {
    c.(phase := Floating)
  }

  /** The load handler as evidently intended: lay the orbs out for the
      current flag, on the rails when already settled. */
  function AfterLoad(c: Ctl): (c': Ctl)
    ensures c'.didSettle == c.didSettle
    ensures c'.phase == (if c.didSettle then Settled else Floating)
    ensures Coherent(c')
  {
    if c.didSettle then c.(phase := Settled) else c.(phase := Floating)
  }

  /** The resize handler re-runs the rail layout only when settled. */
  function AfterResize(c: Ctl): (c': Ctl)
    ensures c'.didSettle == c.didSettle
    ensures !c.didSettle ==> c' == c
    ensures c.didSettle ==> c'.phase == Settled
  {
    if c.didSettle then c.(phase := Settled) else c
  }

  /** Which load handler a run uses: the one the page has, or the corrected one. */
  datatype LoadHandler = AsWritten | Intended

  /** One event. Only a scroll can change the flag; an undecided scroll
      changes nothing; with the intended load handler every event keeps the
      flag and the orbs in agreement. */
  function Step(h: LoadHandler, c: Ctl, e: Event): (c': Ctl)
    ensures !e.Scroll? ==> c'.didSettle == c.didSettle
    ensures e.Scroll? && Decide(c.didSettle, e.scrollY, e.innerHeight) == Stay ==> c' == c
    ensures h == Intended && Coherent(c) ==> Coherent(c')
  {
    match e
    case Scroll(y, ih) => Fire(c, Decide(c.didSettle, y, ih))
    case Resize => AfterResize(c)
    case Load => if h == Intended then AfterLoad(c) else AfterLoadAsWritten(c)
  }

  /** The transitions one event fires (Stay is not a transition). */
  function FiredBy(c: Ctl, e: Event): seq<Transition> {
    if e.Scroll? && Decide(c.didSettle, e.scrollY, e.innerHeight) != Stay
    then [Decide(c.didSettle, e.scrollY, e.innerHeight)]
    else []
  }

  function Run(h: LoadHandler, c: Ctl, es: seq<Event>): Ctl
    decreases |es|
  {
    if es == [] then c else Run(h, Step(h, c, es[0]), es[1..])
  }

  /** Every transition a run of events fires, in order. */
  function Fired(h: LoadHandler, c: Ctl, es: seq<Event>): seq<Transition>
    decreases |es|
  {
    if es == [] then [] else FiredBy(c, es[0]) + Fired(h, Step(h, c, es[0]), es[1..])
  }

  /** n transitions alternating, the first one leaving `settled`. */
  function Alternating(settled: bool, n: nat): seq<Transition>
    decreases n
  {
    if n == 0 then [] else [if settled then Unsettle else Settle] + Alternating(!settled, n - 1)
  }

  // ---------------------------------------------------------------------
  // Properties

  /** A scroll on the side of the threshold the flag already reflects
      changes nothing; so does a resize while floating. */
  predicate Quiet(c: Ctl, e: Event) {
    match e
    case Scroll(y, h) => (y > Threshold(h) <==> c.didSettle)
    case Resize => !c.didSettle
    case Load => false
  }

  /** Idempotence: any number of quiet events leaves the state as it was
      and fires nothing, whichever load handler is in place. */
  lemma {:induction false} QuietRun(h: LoadHandler, c: Ctl, es: seq<Event>)
    requires forall k :: 0 <= k < |es| ==> Quiet(c, es[k])
    ensures Run(h, c, es) == c
    ensures Fired(h, c, es) == []
    decreases |es|
  {
    if es != [] {
      assert Quiet(c, es[0]);
      assert Step(h, c, es[0]) == c;
      assert FiredBy(c, es[0]) == [];
      forall k | 0 <= k < |es[1..]| ensures Quiet(c, es[1..][k]) {
        assert es[1..][k] == es[k + 1];
      }
      QuietRun(h, c, es[1..]);
    }
  }

  /** Only a fired transition changes the flag, and it flips it. */
  lemma StepFlag(h: LoadHandler, c: Ctl, e: Event)
    ensures Step(h, c, e).didSettle == (c.didSettle != (FiredBy(c, e) != []))
    ensures FiredBy(c, e) != [] ==> FiredBy(c, e) == [if c.didSettle then Unsettle else Settle]
  {
  }

  /** Transitions alternate: from unsettled the fired sequence is Settle,
      Unsettle, Settle, ...; so each fires at most once per threshold crossing.
      This holds for the page as written too, since neither load handler
      touches the flag. */
  lemma {:induction false} FiredAlternates(h: LoadHandler, c: Ctl, es: seq<Event>)
    ensures Fired(h, c, es) == Alternating(c.didSettle, |Fired(h, c, es)|)
    decreases |es|
  {
    if es != [] {
      var c' := Step(h, c, es[0]);
      StepFlag(h, c, es[0]);
      FiredAlternates(h, c', es[1..]);
      if FiredBy(c, es[0]) != [] {
        assert Fired(h, c, es) == FiredBy(c, es[0]) + Fired(h, c', es[1..]);
        assert c'.didSettle == !c.didSettle;
      } else {
        assert Fired(h, c, es) == Fired(h, c', es[1..]);
      }
    }
  }

  /** With the intended load handler every reachable state is coherent:
      the flag is set exactly when the orbs are on the rails. */
  lemma {:induction false} RunKeepsCoherent(c: Ctl, es: seq<Event>)
    requires Coherent(c)
    ensures Coherent(Run(Intended, c, es))
    decreases |es|
  {
    if es != [] {
      RunKeepsCoherent(Step(Intended, c, es[0]), es[1..]);
    }
  }

  /** Before load the state is coherent; the load event, under either
      handler, leaves the orbs floating when nothing has scrolled yet. */
  lemma InitialCoherent(h: LoadHandler)
    ensures Coherent(Initial)
    ensures Run(h, Initial, [Load]) == Ctl(false, Floating)
  {
  }

  /** As written, a scroll past the threshold before the page's load event
      settles the orbs, and the load handler then sets them floating again
      while the flag stays set: every later scroll past the threshold is then
      quiet, so the orbs float beside scrolled-down content until the viewer
      scrolls back up (or resizes the window). */
  lemma EarlyScrollStrandsOrbs()
    ensures var c := Run(AsWritten, Initial, [Scroll(400.0, 800.0), Load]);
      && c == Ctl(true, Floating)
      && !Coherent(c)
      && Run(AsWritten, c, [Scroll(500.0, 800.0), Scroll(700.0, 800.0)]) == c
      && Run(AsWritten, c, [Resize]) == Ctl(true, Settled)
    ensures Run(Intended, Initial, [Scroll(400.0, 800.0), Load]) == Ctl(true, Settled)
  {
  }

  /** Once stranded, the page as written stays stranded through any number
      of scrolls past the threshold and loads, in any order. */
  lemma {:induction false} StrandedStays(es: seq<Event>)
    requires forall k :: 0 <= k < |es| ==>
      es[k].Load? || (es[k].Scroll? && es[k].scrollY > Threshold(es[k].innerHeight))
    ensures Run(AsWritten, Ctl(true, Floating), es) == Ctl(true, Floating)
    decreases |es|
  {
    if es != [] {
      assert Step(AsWritten, Ctl(true, Floating), es[0]) == Ctl(true, Floating);
      forall k | 0 <= k < |es[1..]|
        ensures es[1..][k].Load? || (es[1..][k].Scroll? && es[1..][k].scrollY > Threshold(es[1..][k].innerHeight))
      {
        assert es[1..][k] == es[k + 1];
      }
      StrandedStays(es[1..]);
    }
  }
}
