/** Shapes of desktop/panel_draw.py: the turning for each docking edge, the closed path around mark and card, and how
    that path changes from frame to frame. Coordinates are real numbers and y grows downward. */
module PanelShape {
  import opened Common

  datatype Point = Point(x: real, y: real)

  datatype Rect = Rect(x: real, y: real, width: real, height: real)

  datatype Edge = Top | Bottom | RightEdge | LeftEdge

  // --- Turning ---------------------------------------------------------------------------------------

  /** Every edge is drawn as if it were the top one; `span` is the widget's size, and `Turned` below leads back. */
  function Primed(edge: Edge, span: Point, r: Rect): Rect {
    match edge
    case Top => r
    case Bottom => Rect(r.x, span.y - r.y - r.height, r.width, r.height)
    case RightEdge => Rect(r.y, span.x - r.x - r.width, r.height, r.width)
    case LeftEdge => Rect(span.y - r.y - r.height, r.x, r.height, r.width)
  }

  function Unprimed(edge: Edge, span: Point, r: Rect): Rect {
    match edge
    case Top => r
    case Bottom => Rect(r.x, span.y - r.y - r.height, r.width, r.height)
    case RightEdge => Rect(span.x - r.y - r.height, r.x, r.height, r.width)
    case LeftEdge => Rect(r.y, span.y - r.x - r.width, r.height, r.width)
  }

  /** A drawing context's transformation: what is drawn at a point lands at xx*x + xy*y + x0, yx*x + yy*y + y0. */
  datatype Matrix = Matrix(xx: real, xy: real, yx: real, yy: real, x0: real, y0: real)

  const IDENTITY: Matrix := Matrix(1.0, 0.0, 0.0, 1.0, 0.0, 0.0)

  function Row(a: real, b: real, c: real, p: Point): real {
    a * p.x + b * p.y + c
  }

  function Applied(m: Matrix, p: Point): Point {
    Point(Row(m.xx, m.xy, m.x0, p), Row(m.yx, m.yy, m.y0, p))
  }

  /** The transformation comes first, and then the one there was. */
  function Combined(m: Matrix, t: Matrix): Matrix {
    var across, down, at := Point(t.xx, t.yx), Point(t.xy, t.yy), Point(t.x0, t.y0);
    Matrix(Row(m.xx, m.xy, 0.0, across), Row(m.xx, m.xy, 0.0, down), Row(m.yx, m.yy, 0.0, across),
           Row(m.yx, m.yy, 0.0, down),
           Row(m.xx, m.xy, m.x0, at), Row(m.yx, m.yy, m.y0, at))
  }

  function Translation(x: real, y: real): Matrix {
    Matrix(1.0, 0.0, 0.0, 1.0, x, y)
  }

  function Scaling(x: real, y: real): Matrix {
    Matrix(x, 0.0, 0.0, y, 0.0, 0.0)
  }

  function Rotation(forward: bool): Matrix {
    if forward then Matrix(0.0, -1.0, 1.0, 0.0, 0.0, 0.0) else Matrix(0.0, 1.0, -1.0, 0.0, 0.0, 0.0)
  }

  /** What each edge's turning comes to. */
  function Turned(edge: Edge, span: Point): Matrix {
    match edge
    case Top => IDENTITY
    case Bottom => Matrix(1.0, 0.0, 0.0, -1.0, 0.0, span.y)
    case RightEdge => Matrix(0.0, -1.0, 1.0, 0.0, span.x, 0.0)
    case LeftEdge => Matrix(0.0, 1.0, -1.0, 0.0, 0.0, span.y)
  }

  predicate Inside(p: Point, r: Rect) {
    r.x <= p.x <= r.x + r.width && r.y <= p.y <= r.y + r.height
  }

  // --- Paths -----------------------------------------------------------------------------------------

  /** Angles are counted in quarter turns from the x axis toward the y axis. */
  datatype Command =
    | NewSubPath
    | Arc(centre: Point, radius: real, from: int)
    | ArcNegative(centre: Point, radius: real, from: int)
    | LineTo(point: Point)
    | ClosePath

  datatype Direction = Down | Leftward | Up | Rightward

  /** Where an angle is on a circle. */
  function On(centre: Point, radius: real, quarter: int): Point {
    match quarter % 4
    case 0 => Point(centre.x + radius, centre.y)
    case 1 => Point(centre.x, centre.y + radius)
    case 2 => Point(centre.x - radius, centre.y)
    case _ => Point(centre.x, centre.y - radius)
  }

  /** Which way a positive arc runs where it passes an angle. */
  function Heading(quarter: int): Direction {
    match quarter % 4
    case 0 => Down
    case 1 => Leftward
    case 2 => Up
    case _ => Rightward
  }

  function Back(d: Direction): Direction {
    match d
    case Down => Up
    case Up => Down
    case Leftward => Rightward
    case Rightward => Leftward
  }

  /** Straight ahead, or here already. */
  predicate Ahead(at: Point, d: Direction, p: Point) {
    match d
    case Down => p.x == at.x && p.y >= at.y
    case Up => p.x == at.x && p.y <= at.y
    case Leftward => p.y == at.y && p.x <= at.x
    case Rightward => p.y == at.y && p.x >= at.x
  }

  /** A pen somewhere on an outline, and where that outline began. */
  datatype Pen = Pen(at: Point, heading: Direction, first: Point, firstHeading: Direction)

  /** Drawing on without a corner: an arc, a quarter turn, begins straight ahead and in the same direction. */
  function Drawn(pen: Pen, c: Command): Option<Pen> {
    match c
    case Arc(centre, radius, from) =>
      if Ahead(pen.at, pen.heading, On(centre, radius, from)) && Heading(from) == pen.heading
      then Some(pen.(at := On(centre, radius, from + 1), heading := Heading(from + 1))) else None
    case ArcNegative(centre, radius, from) =>
      if Ahead(pen.at, pen.heading, On(centre, radius, from)) && Back(Heading(from)) == pen.heading
      then Some(pen.(at := On(centre, radius, from - 1), heading := Back(Heading(from - 1)))) else None
    case LineTo(point) => if Ahead(pen.at, pen.heading, point) then Some(pen.(at := point)) else None
    case _ => None
  }

  function DrawnAll(pen: Pen, cs: seq<Command>): Option<Pen>
    decreases |cs|
  {
    if cs == [] then Some(pen)
    else
      var next := Drawn(pen, cs[0]);
      if next.None? then None else DrawnAll(next.value, cs[1..])
  }

  /** One connected closed outline: a sub-path that begins with an arc, goes on without a corner, and closes straight
      ahead onto its own beginning. */
  predicate Outline(cs: seq<Command>) {
    && |cs| >= 3 && cs[0].NewSubPath? && cs[1].Arc? && cs[|cs| - 1].ClosePath?
    && var first := On(cs[1].centre, cs[1].radius, cs[1].from);
      var pen := DrawnAll(Pen(first, Heading(cs[1].from), first, Heading(cs[1].from)), cs[1..|cs| - 1]);
      pen.Some? && Ahead(pen.value.at, pen.value.heading, first) && pen.value.heading == Heading(cs[1].from)
  }

  function Min(a: real, b: real): real {
    if b < a then b else a
  }

  function Max(a: real, b: real): real {
    if b > a then b else a
  }

  function Fitting(radius: real, r: Rect): real {
    Max(0.0, Min(Min(radius, r.width / 2.0), r.height / 2.0))
  }

  function RoundedPath(r: Rect, radius: real): seq<Command> {
    var q := Fitting(radius, r);
    [NewSubPath,
     Arc(Point(r.x + r.width - q, r.y + q), q, -1),
     Arc(Point(r.x + r.width - q, r.y + r.height - q), q, 0),
     Arc(Point(r.x + q, r.y + r.height - q), q, 1),
     Arc(Point(r.x + q, r.y + q), q, 2),
     ClosePath]
  }

  /** How far the neck's fillets reach: no further than asked, than there is room beside the card's corners, and than
      the capsule's side goes up. */
  function Fillet(head: Rect, tail: Rect, neck: real, headRadius: real, tailRadius: real): real {
    var room := Min(head.x - tail.x - tailRadius, tail.x + tail.width - tailRadius - (head.x + head.width));
    var ceiling := tail.y - (head.y + head.height) + head.height - headRadius;
    Min(Min(neck, room), ceiling)
  }

  predicate Apart(head: Rect, tail: Rect, fillet: real) {
    tail.height < 2.0 || fillet <= 0.5 || fillet < tail.y - (head.y + head.height)
  }

  /** A radius is as asked, or what half the sides leave, and never negative. */
  lemma {:induction false} FittingExactly(radius: real, r: Rect)
    ensures var q := Fitting(radius, r);
      if radius <= 0.0 || r.width <= 0.0 || r.height <= 0.0 then q == 0.0
      else q <= radius && 2.0 * q <= r.width && 2.0 * q <= r.height
           && (q == radius || 2.0 * q == r.width || 2.0 * q == r.height)
  {
  }

  /** A fillet reaches as far as asked, or to the nearest of the card's corners beside the capsule and the capsule's own
      corner above. */
  lemma {:induction false} FilletExactly(head: Rect, tail: Rect, neck: real, headRadius: real, tailRadius: real)
    ensures var f := Fillet(head, tail, neck, headRadius, tailRadius);
      && f <= neck && tail.x + tailRadius <= head.x - f && head.y + headRadius <= tail.y - f
      && head.x + head.width + f <= tail.x + tail.width - tailRadius
      && (f == neck || head.x - f == tail.x + tailRadius || tail.y - f == head.y + headRadius
          || head.x + head.width + f == tail.x + tail.width - tailRadius)
  {
  }

  /** Capsule and card are joined exactly when the card is two high at least and the fillet is wider than a half and
      bridges what is between them. */
  lemma {:induction false} JoinedExactly(head: Rect, tail: Rect, neck: real, headRadius: real, tailRadius: real)
    ensures var hr, tr := Fitting(headRadius, head), Fitting(tailRadius, tail);
      var fillet := Fillet(head, tail, neck, hr, tr);
      if tail.height >= 2.0 && 2.0 * fillet > 1.0 && head.y + head.height + fillet >= tail.y
      then BodyPath(head, Some(tail), neck, headRadius, tailRadius) == NeckPath(head, tail, fillet, hr, tr)
      else
        BodyPath(head, Some(tail), neck, headRadius, tailRadius) ==
          RoundedPath(head.(height := if head.y + head.height >= tail.y + tr then head.height
                            else tail.y + tr - head.y),
                      hr)
          + RoundedPath(tail, tr)
  {
  }

  function NeckPath(head: Rect, tail: Rect, fillet: real, hr: real, tr: real): seq<Command> {
    var hx0, hy0, hx1 := head.x, head.y, head.x + head.width;
    var tx0, ty0, tx1, ty1 := tail.x, tail.y, tail.x + tail.width, tail.y + tail.height;
    var joint := ty0 - fillet;
    [NewSubPath,
     Arc(Point(hx1 - hr, hy0 + hr), hr, -1),
     LineTo(Point(hx1, joint)),
     ArcNegative(Point(hx1 + fillet, joint), fillet, 2),
     Arc(Point(tx1 - tr, ty0 + tr), tr, -1),
     Arc(Point(tx1 - tr, ty1 - tr), tr, 0),
     Arc(Point(tx0 + tr, ty1 - tr), tr, 1),
     Arc(Point(tx0 + tr, ty0 + tr), tr, 2),
     ArcNegative(Point(hx0 - fillet, joint), fillet, 1),
     LineTo(Point(hx0, hy0 + hr)),
     Arc(Point(hx0 + hr, hy0 + hr), hr, 2),
     ClosePath]
  }

  function BodyPath(head: Rect, tail: Option<Rect>, neck: real, headRadius: real, tailRadius: real): seq<Command> {
    if tail.None? then RoundedPath(head, headRadius)
    else
      var hr, tr := Fitting(headRadius, head), Fitting(tailRadius, tail.value);
      var fillet := Fillet(head, tail.value, neck, hr, tr);
      if Apart(head, tail.value, fillet)
      then RoundedPath(head.(height := Max(head.height, tail.value.y + tr - head.y)), hr) + RoundedPath(tail.value, tr)
      else NeckPath(head, tail.value, fillet, hr, tr)
  }

  // --- The drawing context -----------------------------------------------------------------------------

  class Context {
    var matrix: Matrix
    var path: seq<Command>

    constructor ()
      ensures matrix == IDENTITY && path == []
    {
      matrix, path := IDENTITY, [];
    }

    method Translate(x: real, y: real)
      modifies `matrix
      ensures matrix == Combined(old(matrix), Translation(x, y))
    {
      matrix := Combined(matrix, Translation(x, y));
    }

    method Scale(x: real, y: real)
      modifies `matrix
      ensures matrix == Combined(old(matrix), Scaling(x, y))
    {
      matrix := Combined(matrix, Scaling(x, y));
    }

    /** By one quarter turn, forward or back. */
    method Rotate(forward: bool)
      modifies `matrix
      ensures matrix == Combined(old(matrix), Rotation(forward))
    {
      matrix := Combined(matrix, Rotation(forward));
    }

    /** The context is turned so that what is drawn in the primed space lands where it belongs. */
    method Orient(edge: Edge, span: Point)
      modifies `matrix
      ensures matrix == Combined(old(matrix), Turned(edge, span))
    {
      TurnedInSteps(matrix, span);
      hide Combined, Turned, Translation, Scaling, Rotation;
      match edge
      case Top =>
      case Bottom =>
        Translate(0.0, span.y);
        Scale(1.0, -1.0);
      case RightEdge =>
        Translate(span.x, 0.0);
        Rotate(true);
      case LeftEdge =>
        Translate(0.0, span.y);
        Rotate(false);
    }

    method Draw(c: Command)
      modifies `path
      ensures path == old(path) + [c]
    {
      path := path + [c];
    }

    method Rounded(r: Rect, radius: real)
      modifies `path
      ensures path == old(path) + RoundedPath(r, radius)
    {
      var q := Max(0.0, Min(Min(radius, r.width / 2.0), r.height / 2.0));
      Draw(NewSubPath);
      Draw(Arc(Point(r.x + r.width - q, r.y + q), q, -1));
      Draw(Arc(Point(r.x + r.width - q, r.y + r.height - q), q, 0));
      Draw(Arc(Point(r.x + q, r.y + r.height - q), q, 1));
      Draw(Arc(Point(r.x + q, r.y + q), q, 2));
      Draw(ClosePath);
    }

    method Neck(head: Rect, tail: Rect, fillet: real, hr: real, tr: real)
      modifies `path
      ensures path == old(path) + NeckPath(head, tail, fillet, hr, tr)
    {
      var hx0, hy0, hx1 := head.x, head.y, head.x + head.width;
      var tx0, ty0, tx1, ty1 := tail.x, tail.y, tail.x + tail.width, tail.y + tail.height;
      var joint := ty0 - fillet;
      Draw(NewSubPath);
      Draw(Arc(Point(hx1 - hr, hy0 + hr), hr, -1));
      Draw(LineTo(Point(hx1, joint)));
      Draw(ArcNegative(Point(hx1 + fillet, joint), fillet, 2));
      Draw(Arc(Point(tx1 - tr, ty0 + tr), tr, -1));
      Draw(Arc(Point(tx1 - tr, ty1 - tr), tr, 0));
      Draw(Arc(Point(tx0 + tr, ty1 - tr), tr, 1));
      Draw(Arc(Point(tx0 + tr, ty0 + tr), tr, 2));
      Draw(ArcNegative(Point(hx0 - fillet, joint), fillet, 1));
      Draw(LineTo(Point(hx0, hy0 + hr)));
      Draw(Arc(Point(hx0 + hr, hy0 + hr), hr, 2));
      Draw(ClosePath);
    }

    method Body(head: Rect, tail: Option<Rect>, neck: real, headRadius: real, tailRadius: real)
      modifies `path
      ensures path == old(path) + BodyPath(head, tail, neck, headRadius, tailRadius)
    {
      hide RoundedPath, NeckPath;
      if tail.None? {
        Rounded(head, headRadius);
        return;
      }
      var hr := Max(0.0, Min(Min(headRadius, head.width / 2.0), head.height / 2.0));
      var tr := Max(0.0, Min(Min(tailRadius, tail.value.width / 2.0), tail.value.height / 2.0));
      var fillet := Fillet(head, tail.value, neck, hr, tr);
      if Apart(head, tail.value, fillet) {
        // No room for a neck: the two shapes overlap instead.
        Rounded(head.(height := Max(head.height, tail.value.y + tr - head.y)), hr);
        Rounded(tail.value, tr);
        return;
      }
      Neck(head, tail.value, fillet, hr, tr);
    }
  }

  // --- What the shapes are -------------------------------------------------------------------------------

  lemma {:induction false} UnprimedInverts(edge: Edge, span: Point, r: Rect)
    ensures Unprimed(edge, span, Primed(edge, span, r)) == r && Primed(edge, span, Unprimed(edge, span, r)) == r
  {
  }

  /** A point lies in the primed rectangle exactly when the point it lands on lies in the original one. */
  lemma {:induction false} TurnedLandsBack(edge: Edge, span: Point, r: Rect, p: Point)
    ensures Inside(p, Primed(edge, span, r)) <==> Inside(Applied(Turned(edge, span), p), r)
  {
    match edge
    case Top => assert Applied(Turned(edge, span), p) == p;
    case Bottom => assert Applied(Turned(edge, span), p) == Point(p.x, span.y - p.y);
    case RightEdge => assert Applied(Turned(edge, span), p) == Point(span.x - p.y, p.x);
    case LeftEdge => assert Applied(Turned(edge, span), p) == Point(p.y, span.y - p.x);
  }

  lemma {:induction false} TurnedInSteps(m: Matrix, span: Point)
    ensures Combined(m, Turned(Top, span)) == m
    ensures Combined(Combined(m, Translation(0.0, span.y)), Scaling(1.0, -1.0)) == Combined(m, Turned(Bottom, span))
    ensures Combined(Combined(m, Translation(span.x, 0.0)), Rotation(true)) == Combined(m, Turned(RightEdge, span))
    ensures Combined(Combined(m, Translation(0.0, span.y)), Rotation(false)) == Combined(m, Turned(LeftEdge, span))
  {
  }

  /** Whatever transformation there was, what is drawn is first turned and then goes where it sent everything. */
  lemma {:induction false} CombinedApplies(m: Matrix, t: Matrix, p: Point)
    ensures Applied(Combined(m, t), p) == Applied(m, Applied(t, p))
  {
    Spread(m.xx, m.xy, m.x0, t, p);
    Spread(m.yx, m.yy, m.y0, t, p);
    hide Row;
  }

  lemma {:induction false} Spread(a: real, b: real, c: real, t: Matrix, p: Point)
    ensures var across, down, at := Point(t.xx, t.yx), Point(t.xy, t.yy), Point(t.x0, t.y0);
      Row(Row(a, b, 0.0, across), Row(a, b, 0.0, down), Row(a, b, c, at), p) == Row(a, b, c, Applied(t, p))
  {
  }

  /** Pens one after the other, each where the command before it leads. */
  lemma {:induction false} PensFollow(pens: seq<Pen>, cs: seq<Command>)
    requires |pens| == |cs| + 1 && forall i | 0 <= i < |cs| :: Drawn(pens[i], cs[i]) == Some(pens[i + 1])
    ensures DrawnAll(pens[0], cs) == Some(pens[|cs|])
    decreases |cs|
  {
    hide Drawn;
    if cs != [] {
      assert Drawn(pens[0], cs[0]) == Some(pens[1]);
      assert forall i | 0 <= i < |cs| - 1 :: pens[1..][i] == pens[i + 1] && cs[1..][i] == cs[i + 1];
      PensFollow(pens[1..], cs[1..]);
    }
  }

  function Along(first: Point, at: Point, heading: Direction): Pen {
    Pen(at, heading, first, Rightward)
  }

  lemma {:induction false} RoundedIsOutline(r: Rect, radius: real)
    requires r.width >= 0.0 && r.height >= 0.0
    ensures Outline(RoundedPath(r, radius))
  {
    var cs, q := RoundedPath(r, radius), Fitting(radius, r);
    var x1, y1 := r.x + r.width, r.y + r.height;
    var first := Point(x1 - q, r.y);
    var pens := [Along(first, first, Rightward), Along(first, Point(x1, r.y + q), Down),
                 Along(first, Point(x1 - q, y1), Leftward),
                 Along(first, Point(r.x, y1 - q), Up), Along(first, Point(r.x + q, r.y), Rightward)];
    assert cs[1..5] == [cs[1], cs[2], cs[3], cs[4]];
    PensFollow(pens, cs[1..5]);
  }

  /** What the branch that holds a neck knows of its measures. */
  predicate Holds(head: Rect, tail: Rect, fillet: real, hr: real, tr: real) {
    && 0.0 <= hr && hr <= head.width / 2.0 && hr <= head.height / 2.0
    && 0.0 <= tr && tr <= tail.width / 2.0 && tr <= tail.height / 2.0
    && 0.5 < fillet
    && head.y + hr <= tail.y - fillet <= head.y + head.height
    && tail.x + tr <= head.x - fillet && head.x + head.width + fillet <= tail.x + tail.width - tr
  }

  /** The joint lies on the capsule's straight sides, below the upper corners, and the fillets end on the card's
      straight top, between the card's corners. */
  lemma {:induction false} NeckHolds(head: Rect, tail: Rect, neck: real, headRadius: real, tailRadius: real)
    requires head.width >= 0.0 && head.height >= 0.0
    ensures var hr, tr := Fitting(headRadius, head), Fitting(tailRadius, tail);
      var fillet := Fillet(head, tail, neck, hr, tr);
      !Apart(head, tail, fillet) ==> Holds(head, tail, fillet, hr, tr)
  {
  }

  function NeckPens(head: Rect, tail: Rect, fillet: real, hr: real, tr: real): (pens: seq<Pen>)
    ensures |pens| == 11
  {
    var hx0, hy0, hx1 := head.x, head.y, head.x + head.width;
    var tx0, ty0, tx1, ty1 := tail.x, tail.y, tail.x + tail.width, tail.y + tail.height;
    var joint := ty0 - fillet;
    var first := Point(hx1 - hr, hy0);
    [Along(first, first, Rightward),
     Along(first, Point(hx1, hy0 + hr), Down),
     Along(first, Point(hx1, joint), Down),
     Along(first, Point(hx1 + fillet, ty0), Rightward),
     Along(first, Point(tx1, ty0 + tr), Down),
     Along(first, Point(tx1 - tr, ty1), Leftward),
     Along(first, Point(tx0, ty1 - tr), Up),
     Along(first, Point(tx0 + tr, ty0), Rightward),
     Along(first, Point(hx0, joint), Up),
     Along(first, Point(hx0, hy0 + hr), Up),
     Along(first, Point(hx0 + hr, hy0), Rightward)]
  }

  lemma {:induction false} RightHalf(head: Rect, tail: Rect, fillet: real, hr: real, tr: real)
    requires Holds(head, tail, fillet, hr, tr)
    ensures var cs, pens := NeckPath(head, tail, fillet, hr, tr), NeckPens(head, tail, fillet, hr, tr);
      && Drawn(pens[0], cs[1]) == Some(pens[1]) && Drawn(pens[1], cs[2]) == Some(pens[2])
        && Drawn(pens[2], cs[3]) == Some(pens[3])
      && Drawn(pens[3], cs[4]) == Some(pens[4]) && Drawn(pens[4], cs[5]) == Some(pens[5])
  {
  }

  lemma {:induction false} LeftHalf(head: Rect, tail: Rect, fillet: real, hr: real, tr: real)
    requires Holds(head, tail, fillet, hr, tr)
    ensures var cs, pens := NeckPath(head, tail, fillet, hr, tr), NeckPens(head, tail, fillet, hr, tr);
      && Drawn(pens[5], cs[6]) == Some(pens[6]) && Drawn(pens[6], cs[7]) == Some(pens[7])
        && Drawn(pens[7], cs[8]) == Some(pens[8])
      && Drawn(pens[8], cs[9]) == Some(pens[9]) && Drawn(pens[9], cs[10]) == Some(pens[10])
  {
  }

  /** The branch that holds a neck draws one connected closed outline without a corner. */
  lemma {:induction false} NeckIsOutline(head: Rect, tail: Rect, fillet: real, hr: real, tr: real)
    requires Holds(head, tail, fillet, hr, tr)
    ensures Outline(NeckPath(head, tail, fillet, hr, tr))
  {
    hide Drawn, DrawnAll;
    var cs, pens := NeckPath(head, tail, fillet, hr, tr), NeckPens(head, tail, fillet, hr, tr);
    RightHalf(head, tail, fillet, hr, tr);
    LeftHalf(head, tail, fillet, hr, tr);
    assert forall i | 0 <= i < 10 :: cs[1..11][i] == cs[i + 1];
    PensFollow(pens, cs[1..11]);
  }

  /** Whatever the measures, the body is one outline where a neck holds or there is no card, and otherwise two, of which
      the capsule's reaches into the card. */
  lemma {:induction false} BodyIsOutlined(head: Rect, tail: Rect, neck: real, headRadius: real, tailRadius: real)
    requires head.width >= 0.0 && head.height >= 0.0 && tail.width >= 0.0 && tail.height >= 0.0
    ensures Outline(BodyPath(head, None, neck, headRadius, tailRadius))
    ensures var hr, tr := Fitting(headRadius, head), Fitting(tailRadius, tail);
      var reached := head.(height := Max(head.height, tail.y + tr - head.y));
      var body := BodyPath(head, Some(tail), neck, headRadius, tailRadius);
      Outline(body) ||
        (body == RoundedPath(reached, hr) + RoundedPath(tail, tr) && Outline(RoundedPath(reached, hr))
         && Outline(RoundedPath(tail, tr))
         && reached.y + reached.height >= tail.y + tr)
  {
    hide Outline, RoundedPath, NeckPath;
    var hr, tr := Fitting(headRadius, head), Fitting(tailRadius, tail);
    RoundedIsOutline(head, headRadius);
    RoundedIsOutline(tail, tr);
    RoundedIsOutline(head.(height := Max(head.height, tail.y + tr - head.y)), hr);
    NeckHolds(head, tail, neck, headRadius, tailRadius);
    var fillet := Fillet(head, tail, neck, hr, tr);
    if !Apart(head, tail, fillet) {
      NeckIsOutline(head, tail, fillet, hr, tr);
    }
  }

  // --- Easing and motion ---------------------------------------------------------------------------------

  function EaseOutBack(value: real): real {
    var back := 0.9;
    var past := value - 1.0;
    1.0 + (back + 1.0) * (past * past * past) + back * (past * past)
  }

  /** The overshoot stays small: between zero and one, the easing stays between zero and 1.1, from rest to rest. */
  lemma {:induction false} EasingStaysClose(value: real)
    requires 0.0 <= value <= 1.0
    ensures 0.0 <= EaseOutBack(value) <= 1.1 && EaseOutBack(0.0) == 0.0 && EaseOutBack(1.0) == 1.0
  {
    var t := 1.0 - value;
    var square, cube := t * t, t * t * t;
    assert EaseOutBack(value) == 1.0 - 1.9 * cube + 0.9 * square;
    NotBelow(t);
    NotAbove(t);
  }

  lemma {:induction false} NotBelow(t: real)
    requires 0.0 <= t <= 1.0
    ensures 1.0 - 1.9 * (t * t * t) + 0.9 * (t * t) >= 0.0
  {
    var rest := 1.9 * (t * t) + t + 1.0;
    assert 1.0 - 1.9 * (t * t * t) + 0.9 * (t * t) == (1.0 - t) * rest;
  }

  lemma {:induction false} NotAbove(t: real)
    requires 0.0 <= t <= 1.0
    ensures 1.9 * (t * t * t) - 0.9 * (t * t) + 0.1 >= 0.0
  {
    var off, up := t - 1.0 / 3.0, 1.9 * t + 11.0 / 30.0;
    var square := off * off;
    assert square >= 0.0 && up >= 0.0;
    assert square * up >= 0.0;
    assert square * up == 1.9 * (t * t * t) - 0.9 * (t * t) - t / 30.0 + 11.0 / 270.0;
  }

  // --- Motion --------------------------------------------------------------------------------------------

  const MORPH_MS := 380.0

  function Gap(a: real, b: real): real {
    if a < b then b - a else a - b
  }

  /** One frame's move toward the target, at most a quarter of the way from one shape to the other. */
  function Moved(progress: real, target: real, elapsed: real): real {
    var span := if target > progress then MORPH_MS else MORPH_MS * 0.72;
    var travel := Max(0.0, Min(0.25, elapsed / span));
    if target > progress then Min(target, progress + travel) else Max(target, progress - travel)
  }

  /** How much of the way from one shape to the other a frame covers at least, so many milliseconds after the last. */
  function Share(elapsed: real): real {
    Max(0.0, Min(0.25, elapsed / MORPH_MS))
  }

  lemma {:induction false} GapIsDistance(a: real, b: real)
    ensures Gap(a, b) >= 0.0 && (a + Gap(a, b) == b || b + Gap(a, b) == a)
  {
  }

  /** A frame moves by what its time allows: the whole way takes 380 milliseconds to open and 273.6 to close, no frame
      goes further than a quarter of it, and none past the target. */
  lemma {:induction false} MovedExactly(progress: real, target: real, elapsed: real)
    ensures var now := Moved(progress, target, elapsed);
      && (progress == target || elapsed <= 0.0 ==> now == progress)
      && (progress < target && elapsed > 0.0 ==>
            && now <= target && now - progress <= 0.25 && 380.0 * (now - progress) <= elapsed
            && (now == target || now - progress == 0.25 || 380.0 * (now - progress) == elapsed))
      && (progress > target && elapsed > 0.0 ==>
            && now >= target && progress - now <= 0.25 && 273.6 * (progress - now) <= elapsed
            && (now == target || progress - now == 0.25 || 273.6 * (progress - now) == elapsed))
  {
    var slow, fast := elapsed / MORPH_MS, elapsed / (MORPH_MS * 0.72);
    assert slow * 380.0 == elapsed && fast * 273.6 == elapsed;
  }

  /** The move never leaves the range and never passes the target, and comes nearer by what the frame allows. */
  lemma {:induction false} MovedComesNearer(progress: real, target: real, elapsed: real)
    requires 0.0 <= progress <= 1.0 && 0.0 <= target <= 1.0
    ensures var now := Moved(progress, target, elapsed);
      && 0.0 <= now <= 1.0
      && (progress <= target ==> progress <= now <= target) && (target <= progress ==> target <= now <= progress)
      && Gap(now, target) <= Max(0.0, Gap(progress, target) - Share(elapsed))
  {
    var slow, fast := elapsed / MORPH_MS, elapsed / (MORPH_MS * 0.72);
    assert slow * MORPH_MS == elapsed && fast * (MORPH_MS * 0.72) == elapsed;
  }

  /** Milliseconds since the last frame; a last frame at nought is none. */
  function Elapsed(last: int, now: int): (ms: real)
    ensures if last == 0 then ms == 0.0 else 1000.0 * ms == (now - last) as real
  {
    if last == 0 then 0.0 else (now - last) as real / 1000.0
  }

  /** What frames at these times cover together, in microseconds and after one at `start`. */
  function Covered(start: int, times: seq<int>): real {
    if times == [] then 0.0
    else
      var n := |times| - 1;
      Covered(start, times[..n]) + Share(Elapsed(if n == 0 then start else times[n - 1], times[n]))
  }

  class Liquid {
    var progress: real
    var target: real
    var ticking: bool
    var lastFrame: int

    predicate Valid()
      reads this
    {
      && 0.0 <= progress <= 1.0
      && (target == 0.0 || target == 1.0)
      && (!ticking ==> progress == target)
    }

    constructor ()
      ensures Valid() && progress == 0.0 && !ticking
    {
      progress, target, ticking, lastFrame := 0.0, 0.0, false, 0;
    }

    /** A new target. Without motion it is reached here; otherwise frames are asked for, unless they come already. */
    method Morph(open: bool, motion: bool) returns (settled: bool)
      requires Valid()
      modifies this
      ensures Valid() && target == (if open then 1.0 else 0.0)
      ensures settled == !motion && (settled ==> progress == target)
      ensures motion ==> progress == old(progress) && ticking
    {
      target := if open then 1.0 else 0.0;
      if !motion {
        progress := target;
        return true;
      }
      if !ticking {
        ticking, lastFrame := true, 0;
      }
      return false;
    }

    /** A frame, at a time in microseconds. Whether the frames go on. */
    method Step(now: int) returns (more: bool)
      requires Valid() && ticking
      modifies this
      ensures Valid() && target == old(target) && more == ticking
      ensures old(progress) <= target ==> old(progress) <= progress <= target
      ensures target <= old(progress) ==> target <= progress <= old(progress)
      // It goes on exactly while the frame's move leaves more than a thousandth of the way.
      ensures var moved := Moved(old(progress), target, Elapsed(old(lastFrame), now));
        if Gap(moved, target) > 0.001 then more && progress == moved else !more && progress == target
      ensures lastFrame == now
      ensures Gap(progress, target) <=
        Max(0.0, Gap(old(progress), target) - Share(Elapsed(old(lastFrame), now)))
    {
      if lastFrame == 0 {
        lastFrame := now;
      }
      var elapsed := (now - lastFrame) as real / 1000.0;
      lastFrame := now;
      MovedComesNearer(progress, target, elapsed);
      progress := Moved(progress, target, elapsed);
      if Gap(progress, target) > 0.001 {
        return true;
      }
      progress, ticking := target, false;
      return false;
    }

    /** Frames at whatever times: while the motion goes on it is nearer by what they cover together, and it is over once
        that is the whole way. */
    method Settle(start: int, times: seq<int>) returns (more: bool)
      requires Valid() && ticking && lastFrame == start
      modifies this
      ensures Valid() && more == ticking && target == old(target)
      ensures if more then Gap(progress, target) <= 1.0 - Covered(start, times) else progress == target
      ensures Covered(start, times) >= 1.0 ==> !more
    {
      hide Share, Elapsed;
      more := true;
      var taken := 0;
      while more && taken < |times|
        invariant 0 <= taken <= |times|
        invariant Valid() && target == old(target) && more == ticking
        invariant more ==> lastFrame == if taken == 0 then start else times[taken - 1]
        invariant more ==> Gap(progress, target) <= Max(0.0, 1.0 - Covered(start, times[..taken]))
        invariant more && taken > 0 ==> Gap(progress, target) > 0.001
      {
        assert times[..taken + 1][..taken] == times[..taken];
        more := Step(times[taken]);
        taken := taken + 1;
      }
      assert times[..|times|] == times;
    }
  }
}
