# Timeline: a verified model of `TimelineView`

`TimelineView` is a UIKit view that shows a vertical timeline of events
(`TimeFrame`: a date, a text and an optional image). For each event it builds
a block holding a bullet glyph, the optional image with a transparent button
over it, a date label, a text label and a connector line. It stacks the blocks
below a guide view using Auto Layout constraints, and puts a tail line below
the last block. Setting any of its public properties rebuilds the whole
content. Tapping an image button finds the image view that carries the
button's tag.

This project models that behaviour in Dafny:

- `geometry.dfy` (module `Geometry`): points, sizes and rectangles over reals.
- `bullets.dfy` (module `Bullets`): the six `UIBezierPath` initialisers as
  command lists (`MoveTo`, `LineTo`, `ClosePath`, `OvalIn`) and the bullet-type
  dispatch of `bulletView`. Each polygonal path is proved equal to
  `Draw(figures)`, a reference definition that draws a list of vertex chains.
  Lemmas give every bullet's vertex count, subpath count and closedness, and
  show that its vertices lie inside its size box.
- `layout.dfy` (module `Layout`):
  - the events, colours and views;
  - the constraints as data records (item, attribute, anchor view and
    attribute, constant);
  - `blockForTimeFrame` as a function;
  - the lookup performed by `tapImage`, as a specification function.

  A resolved geometry `FrameOf` gives every view's frame, in the timeline's
  coordinates, from the measured label heights. Lemmas prove that this
  geometry satisfies every constraint the code installs. Further lemmas state
  what that geometry means: the stack has no gaps, connectors run from bullet
  to bullet, the timeline's height is 24 plus the sum of the block heights, and
  the tail adds 200 below it.
- `timeline_view.dfy` (module `Timeline`): the class `TimelineView`. Its
  fields are the five public properties plus the subview list and the
  installed constraints. It has the initialiser, the `didSet` setters, the
  rebuild `setupContent` with its removal loop and its stacking loop, and the
  nested search loop of `tapImage`, proved against `LastImageView`.
  `Valid()`, the class invariant, says that every installed constraint is
  about a current subview.

Colours are kept as RGBA components scaled to 0..255. Label heights come from
text measurement, so the geometry takes them as inputs (`Measured`).

The model follows the code in these points:

- an event's text is a required string;
- the tap target is found by numeric tag;
- the bullet sits 10 from the block's left edge;
- the title starts 5 above its nominal offset (0, or 145 with an image), so
  it starts at -5 or at 140; the text starts 5 below the title, and the block
  ends 10 below the text;
- the image (130 high) sits above the title, 10 above it;
- the extra tail space is 200;
- there is no second connector segment from the block top to the bullet;
- the bullet size is fixed at 14 × 14;
- there is no right-to-left mirroring and no bullet-on-right mode.

## Model

| member | source | states |
|---|---|---|
| Bullets.HexagonPath | Timeline/TimelineView.swift:347-356 | the hexagon is the drawing of one closed chain through the top middle, the right side at 1/3 and 2/3 of the height, the bottom middle and the left side at 2/3 and 1/3 |
| Bullets.DiamondPath | Timeline/TimelineView.swift:358-365 | corrected diamond: the drawing of one closed chain through the four side midpoints |
| Bullets.DiamondPathAsWritten | Timeline/TimelineView.swift:358-365 | diamond as written: the fourth vertex is (0, width/2) |
| Bullets.DiamondSlashPath | Timeline/TimelineView.swift:367-371 | the diamond followed by a separate open segment from the left middle to the right middle |
| Bullets.OvalPath | Timeline/TimelineView.swift:373-375 | one oval inscribed in the rect at the origin with the given size; no vertices, no move, no close |
| Bullets.CarrotPath | Timeline/TimelineView.swift:377-382 | the open chevron from the top middle through the right middle to the bottom middle |
| Bullets.ArrowPath | Timeline/TimelineView.swift:384-388 | the chevron followed by a separate segment across the middle |
| Bullets.BulletFiguresDrawn | Timeline/TimelineView.swift:197-210 | every non-circle bullet the switch picks is the drawing of its figures; gives their exact vertex lists and closed counts |
| Bullets.BulletShape | Timeline/TimelineView.swift:197-210 | per bullet type: vertices visited (0, 6, 4, 6, 3, 5), subpaths started, closed subpaths, and that only the circle is an oval |
| Bullets.BulletVerticesInBox | Timeline/TimelineView.swift:197-210 | for a non-negative size, every vertex of every bullet lies in the size box |
| Bullets.DrawShape | Timeline/TimelineView.swift:345-389 | drawing figures yields their vertices in order, one move per figure and one close per closed figure |
| Bullets.DiamondAsWrittenLeftVertex | Timeline/TimelineView.swift:363 | as written, the diamond's fourth vertex is the left midpoint if and only if the size is square |
| Bullets.DiamondAsWrittenInBox | Timeline/TimelineView.swift:358-365 | as written, the diamond stays in its box if and only if width ≤ 2 × height |
| Bullets.DiamondAsWrittenLeavesWideBox | Timeline/TimelineView.swift:363 | the 4 × 1 box gets the vertex (0, 2), which lies outside it |
| Bullets.DiamondAsWrittenAgreesOnSquares | Timeline/TimelineView.swift:228-229 | for the square sizes the view uses, the written and the corrected diamond, and the diamond-slash built on each, coincide |
| Layout.WithoutView | Timeline/TimelineView.swift:149-151 | when a subview is removed, a constraint survives if and only if it was there and does not mention that view |
| Layout.BulletViewHoldsPath | Timeline/TimelineView.swift:195-221 | for a square size, the bullet view's width × width frame contains every vertex of the path it strokes |
| Layout.BlockForTimeFrame | Timeline/TimelineView.swift:223-323 | a block carries its tag and the block constraints in order; it has 7 subviews with an image and 4 without; with an image, the image view with the block's tag is among them; every image view in it is that one |
| Layout.BlockImageLookup | Timeline/TimelineView.swift:251-267 | within a block, the tag search finds the block's image view exactly when the tag is the block's own and it has an image |
| Layout.ChildrenShape | Timeline/TimelineView.swift:153-185 | after a rebuild there are n + 2 subviews: the tail line at the back, then the guide, then block k for event k |
| Layout.TapFindsImageOfBlock | Timeline/TimelineView.swift:325-333 | after a rebuild, the tag search for tag t finds the image view of event t if that event has an image, and nothing otherwise |
| Layout.LayoutConstraintItemsAreChildren | Timeline/TimelineView.swift:153-192 | every constraint the rebuild installs on the timeline is about one of its subviews |
| Layout.LayoutConstraintsHold | Timeline/TimelineView.swift:156-192 | the resolved geometry satisfies every constraint installed on the timeline view |
| Layout.BlockConstraintsHold | Timeline/TimelineView.swift:231-320 | the resolved geometry satisfies every constraint installed on each block |
| Layout.StackIsGapFree | Timeline/TimelineView.swift:167-177 | each block starts at the bottom of the view above it, with the same left edge and width |
| Layout.StackEnds | Timeline/TimelineView.swift:156-192 | the guide sits at 24 and has no height; the timeline ends at the last stacked view; the tail starts there, at x = 16.5, 1 wide, and ends 200 lower |
| Layout.ContainerHeight | Timeline/TimelineView.swift:156-192 | the timeline is 24 plus the sum of the block heights tall, and the tail line ends 200 below that |
| Layout.BlockExtent | Timeline/TimelineView.swift:278-320 | a block is its label heights plus 10 tall, plus 145 with an image; the connector runs from the bullet's bottom to the block's bottom, a non-negative length exactly when there is an image or the labels total at least 4; the image ends 10 above the title |
| Layout.ConnectorLinksBullets | Timeline/TimelineView.swift:309-320 | a block's connector starts at its bullet's bottom and ends at the next bullet's top, or where the tail starts for the last block |
| Timeline.BuildContent | Timeline/TimelineView.swift:153-192 | the stacking loop and the tail produce exactly `Children` (tail, guide, one block per event) and `LayoutConstraints` in installation order |
| Timeline.TimelineView.constructor | Timeline/TimelineView.swift:136-144 | stores the bullet type and events, keeps the default colours (light gray, (0,180,160), (110,110,110)) and leaves the view rebuilt and valid |
| Timeline.TimelineView.RemoveAllSubviews | Timeline/TimelineView.swift:149-151 | removing every subview leaves no subviews and no constraints, keeping the invariant at each step |
| Timeline.TimelineView.SetupContent | Timeline/TimelineView.swift:148-193 | whatever was there before, the view ends with exactly the rebuilt subviews and constraints, and stays valid |
| Timeline.TimelineView.SetTimeFrames | Timeline/TimelineView.swift:69-73 | stores the events, keeps the style, and rebuilds |
| Timeline.TimelineView.SetLineColor | Timeline/TimelineView.swift:78-82 | changes only the line colour, and rebuilds |
| Timeline.TimelineView.SetTitleLabelColor | Timeline/TimelineView.swift:87-91 | changes only the title colour, and rebuilds |
| Timeline.TimelineView.SetDetailLabelColor | Timeline/TimelineView.swift:96-100 | changes only the detail colour, and rebuilds |
| Timeline.TimelineView.SetBulletType | Timeline/TimelineView.swift:105-109 | changes only the bullet type, and rebuilds |
| Timeline.TimelineView.TapImage | Timeline/TimelineView.swift:325-333 | the nested scan returns the last image view, among the subviews of every subview, whose tag is the button's |

## Left out

- Presenting the found image (lines 334-341): it hands the image to a third-party viewer controller and the key window. That is foreign UI code.
- `init(coder:)` (lines 124-127): it unarchives the view, which is I/O, and leaves the events empty.
- Auto Layout's solver and text measurement: `FrameOf` is one solution that satisfies every installed constraint. The label heights are inputs.
- Rendering attributes with no effect on structure or geometry: fonts, corner radii, background colours other than the stroke and line colours, content mode, `masksToBounds` and `numberOfLines`. The same goes for `setTranslatesAutoresizingMaskIntoConstraints` and for `UIColor` colour spaces.
- The bullet view's frame is set directly (width × width) and no constraint fixes its size. The geometry uses the 14 × 14 size passed in.
- Bullets.OvalPath: the oval is kept as a single opaque `OvalIn` command, because its Bézier curve points are computed inside UIKit.
- The connector's `sendSubviewToBack` (line 314) is sent to the timeline, not to the block, and the connector is not a subview of the timeline. It is modelled as having no effect, so the connector stays last among the block's subviews.
- Integer tags are unbounded `int`s, and the numbers of events and subviews are unbounded. Real arithmetic stands in for `CGFloat`, with no rounding.
- Bullets.BulletPath: the Diamond case dispatches to the corrected `DiamondPath` (fourth vertex (0, height/2)), not to the path of line 201 as written (fourth vertex (0, width/2)); the two are equal at the 14 × 14 size `blockForTimeFrame` passes (`DiamondAsWrittenAgreesOnSquares`). So `BulletFiguresDrawn`, `BulletShape`, `BulletVerticesInBox` and `BulletViewHoldsPath` describe the corrected dispatch; for the code as written, the diamond stays in its box only when width ≤ 2 × height (`DiamondAsWrittenInBox`).
- Bullets.DiamondSlashPath: it is built on the corrected diamond. As written, the source builds it on the written diamond. `DiamondAsWrittenAgreesOnSquares` shows the two coincide for the square sizes the view uses.

## Findings

| source | as written | input that shows it | evidently intended | confidence | as-written member | corrected member |
|---|---|---|---|---|---|---|
| Timeline/TimelineView.swift:363 | the diamond's fourth vertex is `(0, size.width / 2)` | `Size(4, 1)`: the fourth vertex is (0, 2), below the bottom of the 4 × 1 box | `(0, size.height / 2)`, the left midpoint, the mirror image of the second vertex | high, not executed; it never shows in the view, which passes 14 × 14 | Bullets.DiamondAsWrittenLeavesWideBox | Bullets.DiamondPath |
