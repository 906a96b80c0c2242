/**
 * Bullet glyphs: the `UIBezierPath` convenience initialisers of the timeline
 * (hexagon, diamond, diamond-slash, oval, carrot, arrow) and the `bulletView`
 * dispatch from a `BulletType` to one of them.
 *
 * A path is the sequence of commands the initialiser issues on a fresh path.
 * Its partner is `Draw`, which traces a list of figures (a vertex chain,
 * closed back to its start or left open); every polygonal initialiser is
 * proved equal to the drawing of the figures it is meant to show.
 */
module Bullets {
  import opened Geometry

  /** One drawing command of a `UIBezierPath`. The oval's curve is a library primitive and stays opaque. */
  datatype PathCommand =
    | MoveTo(p: Point)     // moveToPoint
    | LineTo(p: Point)     // addLineToPoint
    | ClosePath            // closePath
    | OvalIn(rect: Rect)   // init(ovalInRect:)

  type Path = seq<PathCommand>

  /** A vertex chain of a drawing; `closed` when it is joined back to its first vertex. */
  datatype Figure = Figure(vertices: seq<Point>, closed: bool)

  /** The shape of a bullet, as in the public `BulletType` enumeration. */
  datatype BulletType = Circle | Hexagon | Diamond | DiamondSlash | Carrot | Arrow

  // ---------------------------------------------------------------------------
  // Reading a path

  /** The points a path visits, in order: the target of every move and line. */
  function Vertices(p: Path): seq<Point>
  {
    if p == [] then []
    else
      (match p[0]
       case MoveTo(q) => [q]
       case LineTo(q) => [q]
       case _ => []) + Vertices(p[1..])
  }

  /** Number of subpaths started by a move. */
  function MoveCount(p: Path): nat
  {
    if p == [] then 0 else (if p[0].MoveTo? then 1 else 0) + MoveCount(p[1..])
  }

  /** Number of close commands. */
  function CloseCount(p: Path): nat
  {
    if p == [] then 0 else (if p[0].ClosePath? then 1 else 0) + CloseCount(p[1..])
  }

  /** Number of ovals. */
  function OvalCount(p: Path): nat
  {
    if p == [] then 0 else (if p[0].OvalIn? then 1 else 0) + OvalCount(p[1..])
  }

  lemma {:induction false} PathCountsAppend(a: Path, b: Path)
    ensures Vertices(a + b) == Vertices(a) + Vertices(b)
    ensures MoveCount(a + b) == MoveCount(a) + MoveCount(b)
    ensures CloseCount(a + b) == CloseCount(a) + CloseCount(b)
    ensures OvalCount(a + b) == OvalCount(a) + OvalCount(b)
  {
    if a != [] {
      assert (a + b)[1..] == a[1..] + b;
      PathCountsAppend(a[1..], b);
    } else {
      assert a + b == b;
    }
  }

  // ---------------------------------------------------------------------------
  // Drawing figures: the reference definition

  /** One line command to each point of `ps`, in order. */
  function LinesThrough(ps: seq<Point>): (r: Path)
    ensures |r| == |ps|
    ensures forall k :: 0 <= k < |ps| ==> r[k] == LineTo(ps[k])
  {
    if ps == [] then [] else [LineTo(ps[0])] + LinesThrough(ps[1..])
  }

  /** Move to the first vertex, line through the rest, close when the figure is closed. */
  function Trace(f: Figure): Path
  {
    if f.vertices == [] then []
    else [MoveTo(f.vertices[0])] + LinesThrough(f.vertices[1..]) + (if f.closed then [ClosePath] else [])
  }

  /** The figures traced one after the other on a single path. */
  function Draw(figs: seq<Figure>): Path
  {
    if figs == [] then [] else Trace(figs[0]) + Draw(figs[1..])
  }

  /** The vertices of all figures, in drawing order. */
  function AllVertices(figs: seq<Figure>): seq<Point>
  {
    if figs == [] then [] else figs[0].vertices + AllVertices(figs[1..])
  }

  /** Number of closed figures. */
  function ClosedCount(figs: seq<Figure>): nat
  {
    if figs == [] then 0 else (if figs[0].closed then 1 else 0) + ClosedCount(figs[1..])
  }

  lemma {:induction false} LinesThroughShape(ps: seq<Point>)
    ensures Vertices(LinesThrough(ps)) == ps
    ensures MoveCount(LinesThrough(ps)) == 0
    ensures CloseCount(LinesThrough(ps)) == 0
    ensures OvalCount(LinesThrough(ps)) == 0
  {
    if ps != [] {
      PathCountsAppend([LineTo(ps[0])], LinesThrough(ps[1..]));
      LinesThroughShape(ps[1..]);
    }
  }

  /** Tracing a non-empty figure visits its vertices, starts one subpath and closes it when it is closed. */
  lemma TraceShape(f: Figure)
    requires f.vertices != []
    ensures Vertices(Trace(f)) == f.vertices
    ensures MoveCount(Trace(f)) == 1
    ensures CloseCount(Trace(f)) == (if f.closed then 1 else 0)
    ensures OvalCount(Trace(f)) == 0
  {
    var head := [MoveTo(f.vertices[0])] + LinesThrough(f.vertices[1..]);
    var tail: Path := if f.closed then [ClosePath] else [];
    PathCountsAppend([MoveTo(f.vertices[0])], LinesThrough(f.vertices[1..]));
    LinesThroughShape(f.vertices[1..]);
    PathCountsAppend(head, tail);
    assert [f.vertices[0]] + f.vertices[1..] == f.vertices;
  }

  /**
   * Drawing non-empty figures visits exactly their vertices, starts one subpath
   * per figure, closes exactly the closed ones and draws no oval.
   */
  lemma {:induction false} DrawShape(figs: seq<Figure>)
    requires forall k :: 0 <= k < |figs| ==> figs[k].vertices != []
    ensures Vertices(Draw(figs)) == AllVertices(figs)
    ensures MoveCount(Draw(figs)) == |figs|
    ensures CloseCount(Draw(figs)) == ClosedCount(figs)
    ensures OvalCount(Draw(figs)) == 0
  {
    if figs != [] {
      TraceShape(figs[0]);
      PathCountsAppend(Trace(figs[0]), Draw(figs[1..]));
      DrawShape(figs[1..]);
    }
  }

  /** Two figures drawn one after the other. */
  lemma DrawTwo(a: Figure, b: Figure)
    ensures Draw([a, b]) == Trace(a) + Trace(b)
  {
    assert [a, b][1..] == [b];
    assert Draw([b]) == Trace(b) + Draw([]);
  }

  // ---------------------------------------------------------------------------
  // Named points of the size box

  function TopMid(s: Size): Point { Point(s.width / 2.0, 0.0) }
  function RightMid(s: Size): Point { Point(s.width, s.height / 2.0) }
  function BottomMid(s: Size): Point { Point(s.width / 2.0, s.height) }
  function LeftMid(s: Size): Point { Point(0.0, s.height / 2.0) }

  /** The open horizontal segment across the vertical middle, left to right. */
  function Crossbar(s: Size): Figure { Figure([LeftMid(s), RightMid(s)], false) }

  /** The four corners of the diamond, clockwise from the top. */
  function DiamondFigure(s: Size): Figure
  {
    Figure([TopMid(s), RightMid(s), BottomMid(s), LeftMid(s)], true)
  }

  /** The chevron: top-mid, right-mid, bottom-mid, left open. */
  function CarrotFigure(s: Size): Figure
  {
    Figure([TopMid(s), RightMid(s), BottomMid(s)], false)
  }

  // ---------------------------------------------------------------------------
  // The initialisers

  /** `init(hexagonOfSize:)`: a closed hexagon with vertices at the thirds of the sides. */
  function HexagonPath(s: Size): (r: Path)
    ensures r == Draw([Figure([TopMid(s), Point(s.width, s.height / 3.0), Point(s.width, s.height * 2.0 / 3.0),
                               BottomMid(s), Point(0.0, s.height * 2.0 / 3.0), Point(0.0, s.height / 3.0)], true)])
  {
    [ MoveTo(Point(s.width / 2.0, 0.0)),
      LineTo(Point(s.width, s.height / 3.0)),
      LineTo(Point(s.width, s.height * 2.0 / 3.0)),
      LineTo(Point(s.width / 2.0, s.height)),
      LineTo(Point(0.0, s.height * 2.0 / 3.0)),
      LineTo(Point(0.0, s.height / 3.0)),
      ClosePath ]
  }

  /**
   * `init(diamondOfSize:)` as the source writes it: the fourth vertex takes
   * half the WIDTH as its y coordinate.
   */
  function DiamondPathAsWritten(s: Size): (r: Path)
    ensures r == Draw([Figure([TopMid(s), RightMid(s), BottomMid(s), Point(0.0, s.width / 2.0)], true)])
  {
    [ MoveTo(Point(s.width / 2.0, 0.0)),
      LineTo(Point(s.width, s.height / 2.0)),
      LineTo(Point(s.width / 2.0, s.height)),
      LineTo(Point(0.0, s.width / 2.0)),
      ClosePath ]
  }

  /** The diamond as intended: the fourth vertex is the left-middle point. Used by `BulletPath`. */
  function DiamondPath(s: Size): (r: Path)
    ensures r == Draw([DiamondFigure(s)])
  {
    [ MoveTo(Point(s.width / 2.0, 0.0)),
      LineTo(Point(s.width, s.height / 2.0)),
      LineTo(Point(s.width / 2.0, s.height)),
      LineTo(Point(0.0, s.height / 2.0)),
      ClosePath ]
  }

  /** `init(diamondSlashOfSize:)`: the diamond, then a separate segment across its middle. */
  function DiamondSlashPath(s: Size): (r: Path)
    ensures r == Draw([DiamondFigure(s), Crossbar(s)])
  {
    DrawTwo(DiamondFigure(s), Crossbar(s));
    DiamondPath(s) + [MoveTo(Point(0.0, s.height / 2.0)), LineTo(Point(s.width, s.height / 2.0))]
  }

  /** `init(ovalOfSize:)`: the oval inscribed in the size box; no vertices. */
  function OvalPath(s: Size): (r: Path)
    ensures Vertices(r) == [] && MoveCount(r) == 0 && CloseCount(r) == 0
    ensures OvalCount(r) == 1 && r[0].OvalIn? && r[0].rect == Rect(0.0, 0.0, s.width, s.height)
  {
    [OvalIn(Rect(0.0, 0.0, s.width, s.height))]
  }

  /** `init(carrotOfSize:)`: the open chevron. */
  function CarrotPath(s: Size): (r: Path)
    ensures r == Draw([CarrotFigure(s)])
  {
    [ MoveTo(Point(s.width / 2.0, 0.0)),
      LineTo(Point(s.width, s.height / 2.0)),
      LineTo(Point(s.width / 2.0, s.height)) ]
  }

  /** `init(arrowOfSize:)`: the chevron, then a separate segment across its middle. */
  function ArrowPath(s: Size): (r: Path)
    ensures r == Draw([CarrotFigure(s), Crossbar(s)])
  {
    DrawTwo(CarrotFigure(s), Crossbar(s));
    CarrotPath(s) + [MoveTo(Point(0.0, s.height / 2.0)), LineTo(Point(s.width, s.height / 2.0))]
  }

  /** The `switch` of `bulletView`: one initialiser per bullet type. */
  function BulletPath(t: BulletType, s: Size): Path
  {
    match t
    case Circle => OvalPath(s)
    case Diamond => DiamondPath(s)
    case DiamondSlash => DiamondSlashPath(s)
    case Hexagon => HexagonPath(s)
    case Carrot => CarrotPath(s)
    case Arrow => ArrowPath(s)
  }

  /** The figures the polygonal bullets draw. */
  function BulletFigures(t: BulletType, s: Size): seq<Figure>
  {
    match t
    case Circle => []
    case Diamond => [DiamondFigure(s)]
    case DiamondSlash => [DiamondFigure(s), Crossbar(s)]
    case Hexagon =>
      [Figure([TopMid(s), Point(s.width, s.height / 3.0), Point(s.width, s.height * 2.0 / 3.0),
               BottomMid(s), Point(0.0, s.height * 2.0 / 3.0), Point(0.0, s.height / 3.0)], true)]
    case Carrot => [CarrotFigure(s)]
    case Arrow => [CarrotFigure(s), Crossbar(s)]
  }

  /** Number of vertices each bullet visits. */
  function VertexCount(t: BulletType): nat
  {
    match t
    case Circle => 0
    case Hexagon => 6
    case Diamond => 4
    case DiamondSlash => 6
    case Carrot => 3
    case Arrow => 5
  }

  /** Every bullet but the circle is the drawing of its figures; their vertex lists and closed count, spelled out. */
  lemma {:induction false} BulletFiguresDrawn(t: BulletType, s: Size)
    requires t != Circle
    ensures BulletPath(t, s) == Draw(BulletFigures(t, s))
    ensures forall k :: 0 <= k < |BulletFigures(t, s)| ==> BulletFigures(t, s)[k].vertices != []
    ensures AllVertices(BulletFigures(t, s)) ==
      match t
      case Hexagon => [TopMid(s), Point(s.width, s.height / 3.0), Point(s.width, s.height * 2.0 / 3.0),
                       BottomMid(s), Point(0.0, s.height * 2.0 / 3.0), Point(0.0, s.height / 3.0)]
      case Diamond => [TopMid(s), RightMid(s), BottomMid(s), LeftMid(s)]
      case DiamondSlash => [TopMid(s), RightMid(s), BottomMid(s), LeftMid(s), LeftMid(s), RightMid(s)]
      case Carrot => [TopMid(s), RightMid(s), BottomMid(s)]
      case _ => [TopMid(s), RightMid(s), BottomMid(s), LeftMid(s), RightMid(s)]
    ensures ClosedCount(BulletFigures(t, s)) == (if t in {Hexagon, Diamond, DiamondSlash} then 1 else 0)
  {
    var figs := BulletFigures(t, s);
    assert AllVertices([]) == [] && ClosedCount([]) == 0;
    if |figs| == 2 {
      assert figs[1..] == [figs[1]];
      assert AllVertices([figs[1]]) == figs[1].vertices + AllVertices([]);
      assert ClosedCount([figs[1]]) == (if figs[1].closed then 1 else 0) + ClosedCount([]);
    } else {
      assert figs[1..] == [];
    }
  }

  /**
   * The shape of each bullet: how many vertices it visits, how many subpaths it
   * starts, whether it is closed, and that only the circle is an oval.
   */
  lemma BulletShape(t: BulletType, s: Size)
    ensures |Vertices(BulletPath(t, s))| == VertexCount(t)
    ensures MoveCount(BulletPath(t, s)) == (if t in {DiamondSlash, Arrow} then 2 else if t == Circle then 0 else 1)
    ensures CloseCount(BulletPath(t, s)) == (if t in {Hexagon, Diamond, DiamondSlash} then 1 else 0)
    ensures OvalCount(BulletPath(t, s)) == (if t == Circle then 1 else 0)
  {
    if t != Circle {
      BulletFiguresDrawn(t, s);
      DrawShape(BulletFigures(t, s));
    }
  }

  /** For a non-negative size box, every vertex of every bullet lies inside the box. */
  lemma BulletVerticesInBox(t: BulletType, s: Size)
    requires s.width >= 0.0 && s.height >= 0.0
    ensures forall p | p in Vertices(BulletPath(t, s)) :: InBox(p, s)
  {
    if t != Circle {
      BulletFiguresDrawn(t, s);
      DrawShape(BulletFigures(t, s));
    }
  }

  // ---------------------------------------------------------------------------
  // The diamond's fourth vertex

  /** As written, the fourth vertex is the left-middle point exactly when the box is square. */
  lemma DiamondAsWrittenLeftVertex(s: Size)
    ensures Vertices(DiamondPathAsWritten(s)) == [TopMid(s), RightMid(s), BottomMid(s), Point(0.0, s.width / 2.0)]
    ensures Vertices(DiamondPathAsWritten(s))[3] == LeftMid(s) <==> s.width == s.height
  {
    var f := Figure([TopMid(s), RightMid(s), BottomMid(s), Point(0.0, s.width / 2.0)], true);
    TraceShape(f);
    assert [f][1..] == [];
    assert Draw([f]) == Trace(f) + Draw([]) == Trace(f);
    assert DiamondPathAsWritten(s) == Trace(f);
  }

  /** As written, the diamond stays in its box exactly when the box is at most twice as wide as high. */
  lemma DiamondAsWrittenInBox(s: Size)
    requires s.width >= 0.0 && s.height >= 0.0
    ensures (forall p | p in Vertices(DiamondPathAsWritten(s)) :: InBox(p, s)) <==> s.width <= 2.0 * s.height
  {
    DiamondAsWrittenLeftVertex(s);
    var vs := Vertices(DiamondPathAsWritten(s));
    assert vs[3] in vs;
  }

  /** A concrete box the written diamond leaves: a 4 x 1 box gets the vertex (0, 2). */
  lemma DiamondAsWrittenLeavesWideBox()
    ensures Point(0.0, 2.0) in Vertices(DiamondPathAsWritten(Size(4.0, 1.0)))
    ensures !InBox(Point(0.0, 2.0), Size(4.0, 1.0))
  {
    DiamondAsWrittenLeftVertex(Size(4.0, 1.0));
  }

  /** On a square box, which is all the timeline ever passes, the written and the intended diamond coincide. */
  lemma DiamondAsWrittenAgreesOnSquares(s: Size)
    requires s.width == s.height
    ensures DiamondPathAsWritten(s) == DiamondPath(s)
    ensures DiamondSlashPath(s) == DiamondPathAsWritten(s) + [MoveTo(LeftMid(s)), LineTo(RightMid(s))]
  {
  }
}
