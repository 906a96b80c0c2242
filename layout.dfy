/**
 * The content of a `TimelineView` as `setupContent` builds it, and the
 * geometry Auto Layout resolves for it.
 *
 * Every constraint the view installs is kept as a record: `item.attr ==
 * to + constant` (all of them use relation `.Equal` and multiplier 1.0; `to`
 * is absent for `.NotAnAttribute`).  The resolved geometry `FrameOf` is a
 * function of the measured heights of the two labels of each block (text
 * measurement is external), and the lemmas prove that it satisfies every
 * installed constraint.
 */
module Layout {
  import opened Wrappers
  import opened Geometry
  import opened Bullets

  // ---------------------------------------------------------------------------
  // Data

  /** A `UIImage`, known here only by its name. */
  datatype Image = Image(name: string)

  /** One event of the timeline; `image` is optional, `text` and `date` are not. */
  datatype TimeFrame = TimeFrame(text: string, date: string, image: Option<Image>)

  /** A `UIColor` by its components, each scaled to 0..255. */
  datatype Color = Color(red: nat, green: nat, blue: nat, alpha: nat)

  /** `UIColor.lightGrayColor()`: white at two thirds, 170 of 255. */
  const LightGray := Color(170, 170, 170, 255)
  const DefaultTitleLabelColor := Color(0, 180, 160, 255)
  const DefaultDetailLabelColor := Color(110, 110, 110, 255)

  /** The four public style properties of the view. */
  datatype Style = Style(lineColor: Color, titleLabelColor: Color, detailLabelColor: Color, bulletType: BulletType)

  // Layout constants of `setupContent` and `blockForTimeFrame`
  const GuideTop: real := 24.0
  const ExtraSpace: real := 200.0
  const LineLeft: real := 16.5
  const LineWidth: real := 1.0
  const BulletSize: Size := Size(14.0, 14.0)
  const BulletLeft: real := 10.0
  const ContentLeft: real := 40.0
  const ImageHeight: real := 130.0
  const ImageWidthInset: real := 60.0
  const LabelWidthInset: real := 40.0
  const TitleTopWithImage: real := 145.0

  // ---------------------------------------------------------------------------
  // Views and constraints

  /** The parts of one block. */
  datatype PartKind = BulletPart | ImageBackdrop | ImagePart | ButtonPart | TitlePart | TextPart | ConnectorPart

  /** The identity of a view: the timeline itself, its children, and the parts of block `i`. */
  datatype ViewId = Container | Guide | Tail | Block(index: nat) | Part(block: nat, kind: PartKind)

  datatype Attribute = Top | Bottom | Left | Right | Width | Height

  /** The right-hand side of a constraint: an attribute of another view, or nothing (`.NotAnAttribute`). */
  datatype Anchor = Of(view: ViewId, attr: Attribute) | NoAnchor

  /** `item.attr == to + constant`. */
  datatype Constraint = Constraint(item: ViewId, attr: Attribute, to: Anchor, constant: real)

  /** A subview of a block. Only image views and buttons are given a tag; every other view keeps the default 0. */
  datatype Subview =
    | Bullet(bulletType: BulletType, size: Size, frame: Rect, stroke: Color)
    | ImageBackdropView
    | ImageView(tag: int, image: Image)
    | ImageButton(tag: int)
    | TitleLabel(title: string, color: Color)
    | TextLabel(text: string, color: Color)
    | ConnectorLine(color: Color)
  {
    /** The path of a bullet's shape layer. */
    function ShapePath(): Path
      requires Bullet?
    {
      BulletPath(bulletType, size)
    }

    function Tag(): int
    {
      match this
      case ImageView(t, _) => t
      case ImageButton(t) => t
      case _ => 0
    }
  }

  /** A direct child of the timeline view. */
  datatype View =
    | GuideView
    | TailLine(color: Color)
    | BlockView(index: nat, subviews: seq<Subview>, constraints: seq<Constraint>)
  {
    function Id(): ViewId
    {
      match this
      case GuideView => Guide
      case TailLine(_) => Tail
      case BlockView(i, _, _) => Block(i)
    }

    function Children(): seq<Subview>
    {
      if BlockView? then subviews else []
    }
  }

  /** The identities of a list of views. */
  function Ids(vs: seq<View>): set<ViewId>
  {
    set v | v in vs :: v.Id()
  }

  /** Every constraint in `cs` is about one of the views `vs`. */
  ghost predicate ItemsAreChildren(cs: seq<Constraint>, vs: seq<View>)
  {
    forall c | c in cs :: c.item in Ids(vs)
  }

  predicate Mentions(c: Constraint, id: ViewId)
  {
    c.item == id || (c.to.Of? && c.to.view == id)
  }

  /** The constraints that survive when view `id` leaves the hierarchy. */
  function WithoutView(cs: seq<Constraint>, id: ViewId): (r: seq<Constraint>)
    ensures forall c :: c in r <==> c in cs && !Mentions(c, id)
  {
    if cs == [] then [] else (if Mentions(cs[0], id) then [] else [cs[0]]) + WithoutView(cs[1..], id)
  }

  /** When no view is left, no constraint about a view is left either. */
  lemma NoViewsNoConstraints(cs: seq<Constraint>, vs: seq<View>)
    requires ItemsAreChildren(cs, vs)
    ensures vs == [] ==> cs == []
  {
    if cs != [] {
      assert cs[0] in cs;
    }
  }

  // ---------------------------------------------------------------------------
  // Building one block

  /**
   * `bulletView`: a view `s.width` square whose shape layer strokes the path
   * of the chosen type over `s`.
   */
  function BulletView(s: Size, t: BulletType, stroke: Color): Subview
  {
    Bullet(t, s, Rect(0.0, 0.0, s.width, s.width), stroke)
  }

  /**
   * The bullet view strokes `BulletPath(t, s)`; for the square sizes the
   * timeline uses, its width x width frame holds every vertex of that path.
   */
  lemma BulletViewHoldsPath(s: Size, t: BulletType, stroke: Color)
    ensures s.width == s.height && s.width >= 0.0 ==>
      forall p | p in Vertices(BulletView(s, t, stroke).ShapePath()) :: InRect(p, BulletView(s, t, stroke).frame)
  {
    if s.width == s.height && s.width >= 0.0 {
      BulletVerticesInBox(t, s);
    }
  }

  /** The top of the title label inside its block: below the image when there is one. */
  function TitleTop(f: TimeFrame): real
  {
    (if f.image.Some? then TitleTopWithImage else 0.0) - 5.0
  }

  function BulletConstraints(i: nat): seq<Constraint>
  {
    [ Constraint(Part(i, BulletPart), Left, Of(Block(i), Left), BulletLeft),
      Constraint(Part(i, BulletPart), Top, Of(Block(i), Top), 0.0) ]
  }

  function ImageConstraints(i: nat): seq<Constraint>
  {
    [ Constraint(Part(i, ImageBackdrop), Width, Of(Block(i), Width), -ImageWidthInset),
      Constraint(Part(i, ImageBackdrop), Height, NoAnchor, ImageHeight),
      Constraint(Part(i, ImageBackdrop), Left, Of(Block(i), Left), ContentLeft),
      Constraint(Part(i, ImageBackdrop), Top, Of(Block(i), Top), 0.0),
      Constraint(Part(i, ImagePart), Left, Of(Part(i, ImageBackdrop), Left), 0.0),
      Constraint(Part(i, ImagePart), Right, Of(Part(i, ImageBackdrop), Right), 0.0),
      Constraint(Part(i, ImagePart), Top, Of(Part(i, ImageBackdrop), Top), 0.0),
      Constraint(Part(i, ImagePart), Bottom, Of(Part(i, ImageBackdrop), Bottom), 0.0),
      Constraint(Part(i, ButtonPart), Width, Of(Block(i), Width), -ImageWidthInset),
      Constraint(Part(i, ButtonPart), Height, NoAnchor, ImageHeight),
      Constraint(Part(i, ButtonPart), Left, Of(Block(i), Left), ContentLeft),
      Constraint(Part(i, ButtonPart), Top, Of(Block(i), Top), 0.0) ]
  }

  function LabelConstraints(f: TimeFrame, i: nat): seq<Constraint>
  {
    [ Constraint(Part(i, TitlePart), Width, Of(Block(i), Width), -LabelWidthInset),
      Constraint(Part(i, TitlePart), Left, Of(Block(i), Left), ContentLeft),
      Constraint(Part(i, TitlePart), Top, Of(Block(i), Top), TitleTop(f)),
      Constraint(Part(i, TextPart), Width, Of(Block(i), Width), -LabelWidthInset),
      Constraint(Part(i, TextPart), Left, Of(Block(i), Left), ContentLeft),
      Constraint(Part(i, TextPart), Top, Of(Part(i, TitlePart), Bottom), 5.0),
      Constraint(Part(i, TextPart), Bottom, Of(Block(i), Bottom), -10.0) ]
  }

  function ConnectorConstraints(i: nat): seq<Constraint>
  {
    [ Constraint(Part(i, ConnectorPart), Width, NoAnchor, LineWidth),
      Constraint(Part(i, ConnectorPart), Left, Of(Block(i), Left), LineLeft),
      Constraint(Part(i, ConnectorPart), Top, Of(Block(i), Top), BulletSize.height),
      Constraint(Part(i, ConnectorPart), Height, Of(Block(i), Height), -BulletSize.height) ]
  }

  /** The constraints `blockForTimeFrame` installs on block `i`, in order. */
  function BlockConstraints(f: TimeFrame, i: nat): seq<Constraint>
  {
    BulletConstraints(i) + (if f.image.Some? then ImageConstraints(i) else []) + LabelConstraints(f, i) + ConnectorConstraints(i)
  }

  /**
   * The image views among `ws` whose tag is `tag`, the LAST one wins: the
   * lookup `tapImage` performs, over the subviews in order.
   */
  function LastImageView(ws: seq<Subview>, tag: int): Option<Subview>
  {
    if ws == [] then None
    else if ws[|ws| - 1].ImageView? && ws[|ws| - 1].Tag() == tag then Some(ws[|ws| - 1])
    else LastImageView(ws[..|ws| - 1], tag)
  }

  lemma {:induction false} LastImageViewAppend(a: seq<Subview>, b: seq<Subview>, tag: int)
    ensures LastImageView(a + b, tag) == if LastImageView(b, tag).Some? then LastImageView(b, tag) else LastImageView(a, tag)
  {
    if b == [] {
      assert a + b == a;
    } else {
      assert (a + b)[..|a + b| - 1] == a + b[..|b| - 1];
      LastImageViewAppend(a, b[..|b| - 1], tag);
    }
  }

  lemma LastImageViewSingle(x: Subview, tag: int)
    ensures LastImageView([x], tag) == if x.ImageView? && x.Tag() == tag then Some(x) else None
  {
    assert [x][..0] == [];
  }

  /** Without any image view, the lookup finds nothing. */
  lemma {:induction false} LastImageViewNone(ws: seq<Subview>, tag: int)
    requires forall k :: 0 <= k < |ws| ==> !ws[k].ImageView?
    ensures LastImageView(ws, tag) == None
  {
    if ws != [] {
      LastImageViewNone(ws[..|ws| - 1], tag);
    }
  }

  /**
   * `blockForTimeFrame(element, imageTag:)`: a block holding the bullet, the
   * image backdrop, image view and button when there is an image (both tagged
   * with `tag`), the title and text labels, and the connector line. The
   * connector stays last: the source sends it to the back of the timeline
   * view, of which it is not a direct subview, and that has no effect.
   */
  function BlockForTimeFrame(f: TimeFrame, tag: nat, style: Style): (v: View)
    ensures v.BlockView? && v.Id() == Block(tag) && v.constraints == BlockConstraints(f, tag)
    ensures |v.subviews| == if f.image.Some? then 7 else 4
    ensures f.image.Some? ==> ImageView(tag, f.image.value) in v.subviews
    ensures forall k :: 0 <= k < |v.subviews| && v.subviews[k].ImageView? ==>
      f.image.Some? && v.subviews[k] == ImageView(tag, f.image.value)
  {
    var image := if f.image.Some? then [ImageBackdropView, ImageView(tag, f.image.value), ImageButton(tag)] else [];
    BlockView(tag,
      [BulletView(BulletSize, style.bulletType, style.lineColor)] + image +
      [TitleLabel(f.date, style.titleLabelColor), TextLabel(f.text, style.detailLabelColor), ConnectorLine(style.lineColor)],
      BlockConstraints(f, tag))
  }

  /**
   * Within one block, the lookup of `tapImage` finds the block's image view
   * for the block's own tag when it shows an image, and nothing otherwise.
   */
  lemma BlockImageLookup(f: TimeFrame, tag: nat, style: Style, t: int)
    ensures LastImageView(BlockForTimeFrame(f, tag, style).subviews, t) ==
      if t == tag && f.image.Some? then Some(ImageView(tag, f.image.value)) else None
  {
    var ws := BlockForTimeFrame(f, tag, style).subviews;
    var n := |ws|;
    var front := ws[..n - 3];
    var labels := ws[n - 3..];
    assert ws == front + labels;
    LastImageViewNone(labels, t);
    LastImageViewAppend(front, labels, t);
    if f.image.Some? {
      assert front == [ws[0], ws[1], ws[2]] + [ws[3]];
      LastImageViewSingle(ws[3], t);
      LastImageViewAppend([ws[0], ws[1], ws[2]], [ws[3]], t);
      assert [ws[0], ws[1], ws[2]] == [ws[0], ws[1]] + [ws[2]];
      LastImageViewSingle(ws[2], t);
      LastImageViewAppend([ws[0], ws[1]], [ws[2]], t);
      LastImageViewNone([ws[0], ws[1]], t);
    } else {
      LastImageViewNone(front, t);
    }
  }

  // ---------------------------------------------------------------------------
  // The children of the timeline

  /** The blocks of `fs`, one per event in order, block `k` tagged `k`. */
  function Blocks(fs: seq<TimeFrame>, style: Style): (r: seq<View>)
    ensures |r| == |fs|
  {
    if fs == [] then []
    else Blocks(fs[..|fs| - 1], style) + [BlockForTimeFrame(fs[|fs| - 1], |fs| - 1, style)]
  }

  /** The children after a rebuild. */
  function Children(fs: seq<TimeFrame>, style: Style): seq<View>
  {
    [TailLine(style.lineColor), GuideView] + Blocks(fs, style)
  }

  /** One more event adds one more block at the end. */
  lemma BlocksSnoc(fs: seq<TimeFrame>, style: Style, i: nat)
    requires i < |fs|
    ensures Blocks(fs[..i + 1], style) == Blocks(fs[..i], style) + [BlockForTimeFrame(fs[i], i, style)]
  {
    assert fs[..i + 1][..i] == fs[..i];
  }

  /** One step of the rebuild loop: the block for event `i` and its three links join the rest. */
  lemma StackStep(fs: seq<TimeFrame>, style: Style, i: nat, added: seq<View>, installed: seq<Constraint>)
    requires i < |fs|
    requires added == [GuideView] + Blocks(fs[..i], style)
    requires installed == GuideConstraints() + StackConstraints(i)
    ensures added + [BlockForTimeFrame(fs[i], i, style)] == [GuideView] + Blocks(fs[..i + 1], style)
    ensures installed + LinkConstraints(i) == GuideConstraints() + StackConstraints(i + 1)
  {
    BlocksSnoc(fs, style, i);
  }

  /**
   * The last step of the rebuild: with the tail line at the back and its
   * constraints and the bottom pin appended, the view holds exactly
   * `Children` and `LayoutConstraints`.
   */
  lemma TailStep(fs: seq<TimeFrame>, style: Style, added: seq<View>, installed: seq<Constraint>)
    requires added == [GuideView] + Blocks(fs, style)
    requires installed == GuideConstraints() + StackConstraints(|fs|)
    ensures [TailLine(style.lineColor)] + added == Children(fs, style)
    ensures installed + TailConstraints(Stacked(|fs|)) + [Constraint(Stacked(|fs|), Bottom, Of(Container, Bottom), 0.0)]
            == LayoutConstraints(|fs|)
  {
  }

  lemma {:induction false} BlocksAt(fs: seq<TimeFrame>, style: Style, k: nat)
    requires k < |fs|
    ensures Blocks(fs, style)[k] == BlockForTimeFrame(fs[k], k, style)
  {
    var n := |fs| - 1;
    if k < n {
      BlocksAt(fs[..n], style, k);
    }
  }

  /**
   * The children after a rebuild: the tail line (sent to the back, so
   * first), the guide, and one block per event in order, `|fs| + 2` views
   * whatever was there before.
   */
  lemma ChildrenShape(fs: seq<TimeFrame>, style: Style)
    ensures |Children(fs, style)| == |fs| + 2
    ensures Children(fs, style)[0] == TailLine(style.lineColor) && Children(fs, style)[1] == GuideView
    ensures forall k :: 2 <= k < |fs| + 2 ==> Children(fs, style)[k] == BlockForTimeFrame(fs[k - 2], k - 2, style)
  {
    forall k | 2 <= k < |fs| + 2
      ensures Children(fs, style)[k] == BlockForTimeFrame(fs[k - 2], k - 2, style)
    {
      BlocksAt(fs, style, k - 2);
    }
  }

  /** The view at the bottom of the stack once `n` blocks are stacked: `viewFromAbove`. */
  function Stacked(n: nat): ViewId
  {
    if n == 0 then Guide else Block(n - 1)
  }

  function GuideConstraints(): seq<Constraint>
  {
    [ Constraint(Guide, Top, Of(Container, Top), GuideTop),
      Constraint(Guide, Left, Of(Container, Left), 0.0),
      Constraint(Guide, Width, Of(Container, Width), 0.0),
      Constraint(Guide, Height, NoAnchor, 0.0) ]
  }

  /** Block `i` hangs from the bottom of the view above it, with the same left edge and width. */
  function LinkConstraints(i: nat): seq<Constraint>
  {
    [ Constraint(Block(i), Top, Of(Stacked(i), Bottom), 0.0),
      Constraint(Block(i), Left, Of(Stacked(i), Left), 0.0),
      Constraint(Block(i), Width, Of(Stacked(i), Width), 0.0) ]
  }

  function StackConstraints(n: nat): seq<Constraint>
  {
    if n == 0 then [] else StackConstraints(n - 1) + LinkConstraints(n - 1)
  }

  function TailConstraints(last: ViewId): seq<Constraint>
  {
    [ Constraint(Tail, Left, Of(Container, Left), LineLeft),
      Constraint(Tail, Width, NoAnchor, LineWidth),
      Constraint(Tail, Top, Of(last, Bottom), 0.0),
      Constraint(Tail, Height, NoAnchor, ExtraSpace) ]
  }

  /** The constraints `setupContent` installs on the timeline view for `n` events, in order. */
  function LayoutConstraints(n: nat): seq<Constraint>
  {
    GuideConstraints() + StackConstraints(n) + TailConstraints(Stacked(n))
      + [Constraint(Stacked(n), Bottom, Of(Container, Bottom), 0.0)]
  }

  /** The subviews of all `vs`, child by child. */
  function Grandchildren(vs: seq<View>): seq<Subview>
  {
    if vs == [] then [] else Grandchildren(vs[..|vs| - 1]) + vs[|vs| - 1].Children()
  }

  lemma {:induction false} GrandchildrenAppend(a: seq<View>, b: seq<View>)
    ensures Grandchildren(a + b) == Grandchildren(a) + Grandchildren(b)
  {
    if b == [] {
      assert a + b == a;
    } else {
      assert (a + b)[..|a + b| - 1] == a + b[..|b| - 1];
      GrandchildrenAppend(a, b[..|b| - 1]);
    }
  }

  lemma {:induction false} TapFindsImageOfBlocks(fs: seq<TimeFrame>, style: Style, tag: int)
    ensures LastImageView(Grandchildren(Blocks(fs, style)), tag) ==
      if 0 <= tag < |fs| && fs[tag].image.Some? then Some(ImageView(tag, fs[tag].image.value)) else None
  {
    if fs != [] {
      var n := |fs| - 1;
      var bs := Blocks(fs, style);
      assert bs[..n] == Blocks(fs[..n], style);
      TapFindsImageOfBlocks(fs[..n], style, tag);
      LastImageViewAppend(Grandchildren(bs[..n]), bs[n].Children(), tag);
      BlockImageLookup(fs[n], n, style, tag);
    }
  }

  /**
   * After a rebuild, the lookup of `tapImage` for the tag of the button of
   * block `i` finds exactly block `i`'s image view, and finds nothing for a
   * tag no image view carries.
   */
  lemma TapFindsImageOfBlock(fs: seq<TimeFrame>, style: Style, tag: int)
    ensures LastImageView(Grandchildren(Children(fs, style)), tag) ==
      if 0 <= tag < |fs| && fs[tag].image.Some? then Some(ImageView(tag, fs[tag].image.value)) else None
  {
    var front := [TailLine(style.lineColor), GuideView];
    var blocks := Blocks(fs, style);
    assert Children(fs, style) == front + blocks;
    assert front[..1] == [TailLine(style.lineColor)] && [TailLine(style.lineColor)][..0] == [];
    assert Grandchildren([TailLine(style.lineColor)]) == Grandchildren([]) + [];
    assert Grandchildren(front) == Grandchildren([TailLine(style.lineColor)]) + [];
    GrandchildrenAppend(front, blocks);
    assert [] + Grandchildren(blocks) == Grandchildren(blocks);
    TapFindsImageOfBlocks(fs, style, tag);
  }

  /** The identities of the children after a rebuild: the tail, the guide and every block. */
  lemma ChildIds(fs: seq<TimeFrame>, style: Style)
    ensures Tail in Ids(Children(fs, style)) && Guide in Ids(Children(fs, style))
    ensures forall i | 0 <= i < |fs| :: Block(i) in Ids(Children(fs, style))
  {
    var ch := Children(fs, style);
    assert ch[0] in ch && ch[0].Id() == Tail;
    assert ch[1] in ch && ch[1].Id() == Guide;
    forall i | 0 <= i < |fs| ensures Block(i) in Ids(ch) {
      BlockId(fs, style, i);
    }
  }

  lemma BlockId(fs: seq<TimeFrame>, style: Style, i: nat)
    requires i < |fs|
    ensures Block(i) in Ids(Children(fs, style))
  {
    var ch := Children(fs, style);
    BlocksAt(fs, style, i);
    assert ch[i + 2] == Blocks(fs, style)[i];
    assert ch[i + 2] in ch;
  }

  /** Every constraint on the timeline view names one of its children as its item. */
  lemma LayoutConstraintItemsAreChildren(fs: seq<TimeFrame>, style: Style)
    ensures forall c | c in LayoutConstraints(|fs|) :: c.item in Ids(Children(fs, style))
  {
    ChildIds(fs, style);
    StackItems(|fs|);
    LayoutConstraintItems(|fs|);
  }

  lemma LayoutConstraintItems(n: nat)
    ensures forall c | c in LayoutConstraints(n) ::
      c in StackConstraints(n) || c.item == Guide || c.item == Tail || c.item == Stacked(n)
  {
  }

  lemma {:induction false} StackItems(n: nat)
    ensures forall c | c in StackConstraints(n) :: c.item.Block? && c.item.index < n
  {
    if n > 0 {
      StackItems(n - 1);
    }
  }

  // ---------------------------------------------------------------------------
  // Resolved geometry

  /** The heights the two labels of a block measure to (intrinsic content size, computed by text layout). */
  datatype Measured = Measured(titleHeight: real, textHeight: real)

  /** The height of a block: the text label's bottom plus 10. */
  function BlockHeight(f: TimeFrame, m: Measured): real
  {
    TitleTop(f) + m.titleHeight + 5.0 + m.textHeight + 10.0
  }

  /** The frame of a part of a block, relative to the block's top-left corner, for a block `w` wide. */
  function LocalFrame(f: TimeFrame, m: Measured, w: real, k: PartKind): Rect
  {
    match k
    case BulletPart => Rect(BulletLeft, 0.0, BulletSize.width, BulletSize.height)
    case ImageBackdrop => Rect(ContentLeft, 0.0, w - ImageWidthInset, ImageHeight)
    case ImagePart => Rect(ContentLeft, 0.0, w - ImageWidthInset, ImageHeight)
    case ButtonPart => Rect(ContentLeft, 0.0, w - ImageWidthInset, ImageHeight)
    case TitlePart => Rect(ContentLeft, TitleTop(f), w - LabelWidthInset, m.titleHeight)
    case TextPart => Rect(ContentLeft, TitleTop(f) + m.titleHeight + 5.0, w - LabelWidthInset, m.textHeight)
    case ConnectorPart => Rect(LineLeft, BulletSize.height, LineWidth, BlockHeight(f, m) - BulletSize.height)
  }

  /** The bottom edge of the `n`-th stacked view (the guide for `n == 0`), in the timeline's coordinates. */
  function StackBottom(fs: seq<TimeFrame>, ms: seq<Measured>, n: nat): real
    requires |ms| == |fs| && n <= |fs|
  {
    if n == 0 then GuideTop else StackBottom(fs, ms, n - 1) + BlockHeight(fs[n - 1], ms[n - 1])
  }

  /**
   * The resolved frame of every view, in the timeline's own coordinates, for
   * a timeline `w` wide whose labels measure `ms`.
   */
  function FrameOf(fs: seq<TimeFrame>, ms: seq<Measured>, w: real, id: ViewId): Rect
    requires |ms| == |fs|
  {
    match id
    case Container => Rect(0.0, 0.0, w, StackBottom(fs, ms, |fs|))
    case Guide => Rect(0.0, GuideTop, w, 0.0)
    case Tail => Rect(LineLeft, StackBottom(fs, ms, |fs|), LineWidth, ExtraSpace)
    case Block(i) =>
      if i < |fs| then Rect(0.0, StackBottom(fs, ms, i), w, BlockHeight(fs[i], ms[i])) else Rect(0.0, 0.0, 0.0, 0.0)
    case Part(i, k) =>
      if i < |fs| then
        var r := LocalFrame(fs[i], ms[i], w, k);
        Rect(r.x, StackBottom(fs, ms, i) + r.y, r.width, r.height)
      else Rect(0.0, 0.0, 0.0, 0.0)
  }

  function AttributeOf(r: Rect, a: Attribute): real
  {
    match a
    case Top => r.Top()
    case Bottom => r.Bottom()
    case Left => r.Left()
    case Right => r.Right()
    case Width => r.width
    case Height => r.height
  }

  /** Constraint `c` holds in the resolved geometry. */
  predicate Holds(c: Constraint, fs: seq<TimeFrame>, ms: seq<Measured>, w: real)
    requires |ms| == |fs|
  {
    AttributeOf(FrameOf(fs, ms, w, c.item), c.attr) ==
      (match c.to
       case Of(v, a) => AttributeOf(FrameOf(fs, ms, w, v), a)
       case NoAnchor => 0.0) + c.constant
  }

  lemma {:induction false} StackConstraintsHold(fs: seq<TimeFrame>, ms: seq<Measured>, w: real, n: nat)
    requires |ms| == |fs| && n <= |fs|
    ensures forall c | c in StackConstraints(n) :: Holds(c, fs, ms, w)
  {
    if n > 0 {
      StackConstraintsHold(fs, ms, w, n - 1);
    }
  }

  /** The resolved geometry satisfies every constraint `setupContent` installs on the timeline view. */
  lemma LayoutConstraintsHold(fs: seq<TimeFrame>, ms: seq<Measured>, w: real)
    requires |ms| == |fs|
    ensures forall c | c in LayoutConstraints(|fs|) :: Holds(c, fs, ms, w)
  {
    StackConstraintsHold(fs, ms, w, |fs|);
  }

  /** The resolved geometry satisfies every constraint `blockForTimeFrame` installs on block `i`. */
  lemma BlockConstraintsHold(fs: seq<TimeFrame>, ms: seq<Measured>, w: real, i: nat)
    requires |ms| == |fs| && i < |fs|
    ensures forall c | c in BlockConstraints(fs[i], i) :: Holds(c, fs, ms, w)
  {
    BulletConstraintsHold(fs, ms, w, i);
    ImageConstraintsHold(fs, ms, w, i);
    LabelConstraintsHold(fs, ms, w, i);
    ConnectorConstraintsHold(fs, ms, w, i);
  }

  lemma BulletConstraintsHold(fs: seq<TimeFrame>, ms: seq<Measured>, w: real, i: nat)
    requires |ms| == |fs| && i < |fs|
    ensures forall c | c in BulletConstraints(i) :: Holds(c, fs, ms, w)
  {
  }

  lemma ImageConstraintsHold(fs: seq<TimeFrame>, ms: seq<Measured>, w: real, i: nat)
    requires |ms| == |fs| && i < |fs|
    ensures forall c | c in ImageConstraints(i) :: Holds(c, fs, ms, w)
  {
  }

  lemma LabelConstraintsHold(fs: seq<TimeFrame>, ms: seq<Measured>, w: real, i: nat)
    requires |ms| == |fs| && i < |fs|
    ensures forall c | c in LabelConstraints(fs[i], i) :: Holds(c, fs, ms, w)
  {
  }

  lemma ConnectorConstraintsHold(fs: seq<TimeFrame>, ms: seq<Measured>, w: real, i: nat)
    requires |ms| == |fs| && i < |fs|
    ensures forall c | c in ConnectorConstraints(i) :: Holds(c, fs, ms, w)
  {
  }

  /**
   * The stack is gap-free: each block starts at the bottom of the view above
   * it (the guide for the first), with its left edge and width.
   */
  lemma StackIsGapFree(fs: seq<TimeFrame>, ms: seq<Measured>, w: real, i: nat)
    requires |ms| == |fs| && i < |fs|
    ensures FrameOf(fs, ms, w, Block(i)).Top() == FrameOf(fs, ms, w, Stacked(i)).Bottom()
    ensures FrameOf(fs, ms, w, Block(i)).Left() == FrameOf(fs, ms, w, Stacked(i)).Left()
    ensures FrameOf(fs, ms, w, Block(i)).width == FrameOf(fs, ms, w, Stacked(i)).width
  {
    if i > 0 {
      assert FrameOf(fs, ms, w, Stacked(i)) == Rect(0.0, StackBottom(fs, ms, i - 1), w, BlockHeight(fs[i - 1], ms[i - 1]));
    }
  }

  /**
   * The guide sits at 24 with no height; the timeline ends at the bottom of
   * the last stacked view; the tail line starts there, at x = 16.5 and 1
   * wide, and reaches 200 further down.
   */
  lemma StackEnds(fs: seq<TimeFrame>, ms: seq<Measured>, w: real)
    requires |ms| == |fs|
    ensures FrameOf(fs, ms, w, Guide).Top() == GuideTop && FrameOf(fs, ms, w, Guide).height == 0.0
    ensures FrameOf(fs, ms, w, Container).Bottom() == FrameOf(fs, ms, w, Stacked(|fs|)).Bottom()
    ensures FrameOf(fs, ms, w, Tail).Top() == FrameOf(fs, ms, w, Container).Bottom()
    ensures FrameOf(fs, ms, w, Tail).Bottom() == FrameOf(fs, ms, w, Container).Bottom() + ExtraSpace
    ensures FrameOf(fs, ms, w, Tail).Left() == LineLeft && FrameOf(fs, ms, w, Tail).width == LineWidth
  {
  }

  /** The sum of the heights of the blocks of `fs`, front to back: the reference for the stack's extent. */
  function TotalHeight(fs: seq<TimeFrame>, ms: seq<Measured>): real
    requires |ms| == |fs|
  {
    if fs == [] then 0.0 else BlockHeight(fs[0], ms[0]) + TotalHeight(fs[1..], ms[1..])
  }

  lemma {:induction false} TotalHeightSnoc(fs: seq<TimeFrame>, ms: seq<Measured>)
    requires |ms| == |fs| && fs != []
    ensures TotalHeight(fs, ms) == TotalHeight(fs[..|fs| - 1], ms[..|ms| - 1]) + BlockHeight(fs[|fs| - 1], ms[|ms| - 1])
  {
    if |fs| > 1 {
      assert fs[1..][..|fs[1..]| - 1] == fs[..|fs| - 1][1..];
      assert ms[1..][..|ms[1..]| - 1] == ms[..|ms| - 1][1..];
      TotalHeightSnoc(fs[1..], ms[1..]);
    }
  }

  /** The `n`-th stacked view ends 24 plus the heights of the first `n` blocks down. */
  lemma {:induction false} StackBottomIsTotal(fs: seq<TimeFrame>, ms: seq<Measured>, n: nat)
    requires |ms| == |fs| && n <= |fs|
    ensures StackBottom(fs, ms, n) == GuideTop + TotalHeight(fs[..n], ms[..n])
  {
    if n > 0 {
      StackBottomIsTotal(fs, ms, n - 1);
      TotalHeightSnoc(fs[..n], ms[..n]);
      assert fs[..n][..n - 1] == fs[..n - 1];
      assert ms[..n][..n - 1] == ms[..n - 1];
    }
  }

  /**
   * The timeline is 24 plus the heights of all blocks tall, and its line
   * reaches a further 200 below.
   */
  lemma ContainerHeight(fs: seq<TimeFrame>, ms: seq<Measured>, w: real)
    requires |ms| == |fs|
    ensures FrameOf(fs, ms, w, Container).height == GuideTop + TotalHeight(fs, ms)
    ensures FrameOf(fs, ms, w, Tail).Bottom() == GuideTop + TotalHeight(fs, ms) + ExtraSpace
  {
    StackBottomIsTotal(fs, ms, |fs|);
    assert fs[..|fs|] == fs && ms[..|ms|] == ms;
  }

  /**
   * A block's height is its labels' heights plus 10, plus 145 when it shows
   * an image; its connector reaches from the bullet's bottom to the block's
   * bottom, which is a non-negative length exactly when the block shows an
   * image or its labels measure at least 4 together.
   */
  lemma BlockExtent(f: TimeFrame, m: Measured, w: real)
    requires m.titleHeight >= 0.0 && m.textHeight >= 0.0
    ensures BlockHeight(f, m) == (if f.image.Some? then 145.0 else 0.0) + m.titleHeight + m.textHeight + 10.0
    ensures LocalFrame(f, m, w, ConnectorPart).Top() == LocalFrame(f, m, w, BulletPart).Bottom()
    ensures LocalFrame(f, m, w, ConnectorPart).Bottom() == BlockHeight(f, m)
    ensures LocalFrame(f, m, w, ConnectorPart).height >= 0.0 <==>
      f.image.Some? || m.titleHeight + m.textHeight >= 4.0
    ensures f.image.Some? ==> LocalFrame(f, m, w, ImageBackdrop).Bottom() + 10.0 == LocalFrame(f, m, w, TitlePart).Top()
  {
  }

  /**
   * The connector of block `i` has no gap at either end: it starts at the
   * bottom of block `i`'s bullet and ends at the top of the next block's
   * bullet, or, for the last block, where the tail line starts.
   */
  lemma ConnectorLinksBullets(fs: seq<TimeFrame>, ms: seq<Measured>, w: real, i: nat)
    requires |ms| == |fs| && i < |fs|
    ensures FrameOf(fs, ms, w, Part(i, ConnectorPart)).Top() == FrameOf(fs, ms, w, Part(i, BulletPart)).Bottom()
    ensures i + 1 < |fs| ==>
      FrameOf(fs, ms, w, Part(i, ConnectorPart)).Bottom() == FrameOf(fs, ms, w, Part(i + 1, BulletPart)).Top()
    ensures i + 1 == |fs| ==>
      FrameOf(fs, ms, w, Part(i, ConnectorPart)).Bottom() == FrameOf(fs, ms, w, Tail).Top()
  {
  }
}
