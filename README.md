# Orb navigation widget: controller model

This project models the controller behind the orb navigation widget of a
personal home page (`script.js`). There are six round "orb" buttons, one
per page. They drift around the hero section. When the page is scrolled
more than 0.45 of a viewport height down, they move to fixed slots on
two rails: the first three on the left edge, the rest on the right. When
the page is scrolled back up they drift again. Clicking an orb navigates
to its page.

The model has three modules:

- `Layout` (layout.dfy) holds the pure geometry: the `max(lo, min(hi, x))`
  clamp, the rail side and slot of each orb, the slot gap, the clamped
  settled and initial positions, and the click fallback.
- `Machine` (machine.dfy) is the two-state machine on its own. Its state
  is the module-level `didSettle` flag plus the phase all orbs share.
  Scroll, resize and load are events. A run of events is taken with a
  load handler: `AsWritten` is the page's handler, and `Intended` is the
  corrected one described under "## Findings". Idempotence (`QuietRun`)
  and alternation (`FiredAlternates`) are proved for both handlers.
  Coherence (`RunKeepsCoherent`) is proved for `Intended` only, since
  `AsWritten` breaks it (`EarlyScrollStrandsOrbs`).
- `Orbs` (orbs.dfy) holds the `Controller` class. The flag is a field and
  the orbs are an array of records that the handlers update in place.
  The scroll, resize and load handlers are proved against `Machine.Step`
  and, like the layout loops, against the
  per-orb functions `SettleOrb`, `PlaceOrb` and `UnsettleOrb`.

Browser inputs become parameters: the window values (`innerWidth`,
`innerHeight`, `scrollY`, `document.body.scrollHeight`), the random
candidate centres of the initial placement, and the per-frame jitter
offsets.

The model follows the code as written:

- The side rule is the hard-coded `i < 3`, not "first half of the list".
  With more than six orbs the right-hand slot index keeps growing
  (`Layout.RailSlotsOf`).
- Unsettling happens when the offset is *at or below* the threshold, not
  strictly below it.
- Unsettling leaves each orb's `data-side` in place.
- Settling does not clear the jitter `transform`.

## Model

| member | source | states |
|---|---|---|
| `Layout.Clamp` | script.js:102-103 | The result is never below the lower bound, and is at most the upper bound when the window is non-empty. An input below the window yields the lower bound. An input above a non-empty window yields the upper bound. An input inside the window is returned as is. An empty window yields the lower bound. |
| `Layout.SideOf` | script.js:93 | An orb is on the left rail iff its index is below 3. |
| `Layout.SlotOf` | script.js:97 | The slot never exceeds the index, and is below 3 for the six configured orbs. Side and slot together give back the index: slot + 0 on the left, slot + 3 on the right. |
| `Layout.SlotsDistinct` | script.js:93-97 | Two different orbs on the same rail never share a slot. |
| `Layout.RailSlotsOf` | script.js:93-97 | With n orbs the left rail holds slots 0..min(n,3)-1 and the right rail holds slots 0..n-4, so the right rail grows without bound. |
| `Layout.SixOrbRails` | script.js:88-97 | With six orbs each rail holds exactly slots 0, 1 and 2. |
| `Layout.Gap` | script.js:84 | The gap is at most 120 and at most innerHeight/6, equals one of them, and is positive on a non-empty viewport. |
| `Layout.StartY` | script.js:87 | The top of slot 0 lies a quarter of the viewport height below the scroll offset, so it is never above the offset on a non-negative viewport. |
| `Layout.RailTop` | script.js:98 | Slot 0 is at the start position. On a non-negative viewport a slot's top lies between the start position and start + slot·120. |
| `Layout.RailTopsIncrease` | script.js:84-98 | When innerHeight > 0, the unclamped tops of two orbs on one rail strictly increase with the index. |
| `Layout.RailLeft` | script.js:101 | On the left rail the target left edge is 24 (`leftX`, line 82). On the right rail the orb's right edge is 24 from the viewport's right edge (`rightX`, line 83). |
| `Layout.SettledLeft` | script.js:100-102 | The settled left edge is at least 8. It is at most innerWidth - width - 8 whenever that bound is at least 8. On a viewport at least width + 32 wide it is exactly 24 (left rail) or innerWidth - 24 - width (right rail). |
| `Layout.SettledTop` | script.js:87-103 | The settled top is at least scrollY + 20. It is at most scrollHeight - height - 20 when that bound is not below the lower one. It equals the unclamped slot top when that lies inside the window. |
| `Layout.InitialEdge` | script.js:53-54 | The initial left (or top) is at least 24. It is at most innerWidth - 24 - width (or innerHeight - 24 - height) when that is at least 24. It centres the orb on the candidate coordinate when the orb fits. |
| `Layout.ClickTarget` | script.js:129 | The navigation target is never empty. It is the orb's link when that is non-empty, and `index.html` otherwise. |
| `Machine.Threshold` | script.js:140 | The threshold is 9/20 (0.45) of the viewport height, and lies strictly between 0 and that height when the height is positive. |
| `Machine.Decide` | script.js:139-148 | Settle fires iff scrollY > 0.45·innerHeight and the flag is clear. Unsettle fires iff scrollY <= 0.45·innerHeight and the flag is set. Nothing happens iff the offset is on the side the flag already reflects. |
| `Machine.Fire` | script.js:141-147 | A fired transition leaves the flag and the orbs in agreement: the flag is set iff the transition is Settle, and Unsettle leaves the orbs floating. Stay changes nothing. |
| `Machine.Step` | script.js:139-160 | Only a scroll can change the flag. An undecided scroll changes nothing. With the intended load handler, every event keeps a coherent state coherent. |
| `Machine.AfterResize` | script.js:152-155 | A resize never changes the flag. It changes nothing while unsettled, and puts the orbs on the rails when the flag is set. |
| `Machine.AfterLoadAsWritten` | script.js:158-160 | The load handler as written leaves the flag alone and sets every orb floating. |
| `Machine.AfterLoad` | script.js:158-160 | The corrected load handler leaves the flag alone. It puts the orbs on the rails when the flag is set and floating otherwise, so the state is always coherent. |
| `Machine.QuietRun` | script.js:141-147 | Under either load handler, any sequence of scrolls on the side of the threshold the flag already reflects, mixed with resizes while unsettled, leaves the state unchanged and fires no transition. |
| `Machine.StepFlag` | script.js:140-147 | Only a fired transition changes the flag. It flips the flag, and it is Settle from unsettled and Unsettle from settled. |
| `Machine.FiredAlternates` | script.js:138-155 | Under either load handler, over any event sequence the fired transitions alternate, starting with Settle from the unsettled state. Each transition therefore fires at most once per threshold crossing. |
| `Machine.RunKeepsCoherent` | script.js:138-160 | With the corrected load handler, every state reachable from a coherent one is coherent: the flag is set exactly when the orbs are settled. |
| `Machine.InitialCoherent` | script.js:138-160 | The state before load is coherent. Under either load handler, a load with no prior scroll leaves the flag clear and the orbs floating. |
| `Machine.EarlyScrollStrandsOrbs` | script.js:138-160 | As written, a scroll past the threshold before load, followed by the load event, leaves the flag set with the orbs floating. Two further scrolls past the threshold change nothing, and a resize puts the orbs back on the rails. The intended handler ends the same run settled. |
| `Machine.StrandedStays` | script.js:141-160 | As written, from the stranded state (flag set, orbs floating) any sequence of scrolls past the threshold and loads leaves the state stranded. |
| `Orbs.NewOrb` | script.js:23-39 | A new orb has no state, no side and no transform, and carries its target's link and its measured size. |
| `Orbs.SettleOrb` | script.js:88-103 | A settled orb has state settled and side left iff its index is below 3. Its left and top are SettledLeft and SettledTop: left at least 8, top at least scrollY + 20. Left is at most innerWidth - width - 8 and top at most scrollHeight - height - 20 when those bounds are not below the lower ones. Left is exactly 24 or innerWidth - 24 - width on a viewport at least width + 32 wide. Top is the slot top when that fits. Link, size and transform are unchanged. |
| `Orbs.PlaceOrb` | script.js:46-55 | A placed orb is floating. Its left and top are InitialEdge of the candidate x and y: at least 24, within the far bounds when they fit, and centred on the candidate when it fits. Link, size, side and transform are unchanged. |
| `Orbs.UnsettleOrb` | script.js:116-122 | An unsettled orb is floating with its transform cleared. Its left and top are InitialEdge of the candidate x and y, so at least 24. Link, size and side are unchanged. |
| `Orbs.Controller.constructor` | script.js:23-39 | There is one unplaced orb per target, carrying that target's link and its measured size. The flag is clear. |
| `Orbs.Controller.SettleToSides` | script.js:81-112 | Every orb i is replaced in place by SettleOrb of its old record, and all orbs are settled. |
| `Orbs.Controller.PlaceInitialRandom` | script.js:42-60 | Every orb i is replaced in place by PlaceOrb of its old record and candidate i, and all orbs are floating. |
| `Orbs.Controller.Unsettle` | script.js:115-123 | Every orb gets state floating and a cleared transform, and is then placed again; all orbs are floating. |
| `Orbs.Controller.OnScroll` | script.js:139-148 | The transition taken is Decide of the old flag. The new flag and phase are Machine.Step of the old ones for a scroll event. A settle lays every orb out on its rail, an unsettle re-places every orb floating, and otherwise no orb moves. |
| `Orbs.Controller.OnResize` | script.js:152-155 | The flag never changes. When it is set every orb is re-laid out on its rail; otherwise no orb changes. |
| `Orbs.Controller.OnLoadAsWritten` | script.js:158-160 | Every orb is placed floating whatever the flag says (the state AfterLoadAsWritten describes). |
| `Orbs.Controller.OnLoad` | script.js:158-160 | The corrected load handler lays the orbs out on the rails when the flag is set and floating otherwise, so the state is coherent afterwards. |
| `Orbs.Controller.Frame` | script.js:69-75 | A frame on a settled orb changes nothing and requests no next frame. Otherwise only that orb's transform becomes the jitter offset and another frame is requested. |
| `Orbs.Controller.Click` | script.js:126-129 | A click navigates to the orb's link, or to `index.html` when the link is empty. |

## Findings

| source | as written | input that shows it | evidently intended | confidence | as-written member | corrected member |
|---|---|---|---|---|---|---|
| script.js:158-160 | The load handler always calls `placeInitialRandom`, which sets every orb floating without looking at `didSettle`. | The page is scrolled past 0.45 of the viewport height before `load` fires, e.g. scrolling while images are loading. The scroll handler settles the orbs and sets `didSettle`. Load then sets them floating with the flag still set, and every later scroll past the threshold is ignored. | On load, lay the orbs out for the current flag: on the rails when already settled. Then the flag and the orbs' state agree in every reachable state. | medium; not executed | `Machine.EarlyScrollStrandsOrbs`, `Machine.StrandedStays` (with `Machine.AfterLoadAsWritten`, `Orbs.Controller.OnLoadAsWritten`) | `Machine.RunKeepsCoherent` (with `Machine.AfterLoad`, `Orbs.Controller.OnLoad`) |

## Left out

- DOM element creation, the label span, the `settled` CSS class and the `aria-label`, `data-index` and `--size` attributes (script.js:23-39, 91, 105-110) are presentation only. The orb record keeps just its link, measured size, state, side, position and transform.
- Orb sizes are taken as measured inputs (`Size`). The link between `--size` and `offsetWidth` lives in CSS, which is not part of this model.
- The jitter motion of `startFloating` (script.js:63-78) is left out: its amplitudes, speed, time counter and trigonometry are floating-point animation driven by the browser's frame scheduler. `Controller.Frame` keeps only the early return on a settled orb and the write of the transform, with the offset as a parameter. Frame chains are not tracked, so the model does not capture several chains running at once on one orb after repeated unsettles.
- `Math.random` angles and radii in `placeInitialRandom` (script.js:43-51) are left out. The candidate centre of each orb is an arbitrary `Point` parameter, and only the clamp is modelled.
- The fade-out, the `setTimeout` and the `window.location` navigation (script.js:130-133) are browser side effects. `Controller.Click` returns the target instead.
- Event listener registration and live reads of the window and element measurements (script.js:149-160) are left out. Handlers take the window values as a `Viewport` parameter.
- Positions are exact reals, and the threshold is exactly 45/100 of the viewport height. JavaScript's binary floating point (0.45 and 0.25 are not exact) is not modelled.
- Orbs before their first placement have no inline position. The model gives them left = top = 0 with state `Unplaced`.
