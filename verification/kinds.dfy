/** The closed set of widget kinds a node can have, and the tables that route
    each kind's draw, measure and arrange calls. The widgets themselves
    (their fields and their own draw/measure/arrange bodies) live elsewhere;
    here each payload is an opaque type and each widget body is a function
    handed in by the caller. */
module Kinds {
  import opened Geometry
  import opened Pool

  /** Opaque widget payloads, one per built-in kind. */
  type Text(==)
  type Border(==)
  type Button(==)
  type ScrollBar(==)
  type ScrollViewer(==)
  type Image(==)
  type Grid(==)
  type Canvas(==)
  type ScrollContentPresenter(==)
  type Window(==)

  /** A boxed user-defined widget behind the custom-kind interface. */
  type CustomKind(==)

  /** A primitive appended to the drawing context by a widget's draw body. */
  type DrawCommand(==)

  /** The kind of a node: ten built-in widgets and one open extension. */
  datatype UINodeKind =
    | Text(text: Text)
    | Border(border: Border)
    | Button(button: Button)
    | ScrollBar(scrollBar: ScrollBar)
    | ScrollViewer(scrollViewer: ScrollViewer)
    | Image(image: Image)
    | Grid(grid: Grid)
    | Canvas(canvas: Canvas)
    | ScrollContentPresenter(scp: ScrollContentPresenter)
    | Window(window: Window)
    | User(user: CustomKind)

  /** The variant of a kind without its payload. */
  datatype KindTag =
    | TextTag | BorderTag | ButtonTag | ScrollBarTag | ScrollViewerTag | ImageTag
    | GridTag | CanvasTag | ScrollContentPresenterTag | WindowTag | UserTag

  function Tag(k: UINodeKind): KindTag
  {
    match k
    case Text(_) => TextTag
    case Border(_) => BorderTag
    case Button(_) => ButtonTag
    case ScrollBar(_) => ScrollBarTag
    case ScrollViewer(_) => ScrollViewerTag
    case Image(_) => ImageTag
    case Grid(_) => GridTag
    case Canvas(_) => CanvasTag
    case ScrollContentPresenter(_) => ScrollContentPresenterTag
    case Window(_) => WindowTag
    case User(_) => UserTag
  }

  /** The kinds that lay out their children themselves. */
  const CustomLayoutTags: set<KindTag> :=
    {BorderTag, CanvasTag, GridTag, ScrollContentPresenterTag, ScrollBarTag}

  /** The kinds that draw visual content of their own. */
  const DrawingTags: set<KindTag> := {TextTag, BorderTag, ImageTag}

  /** Which implementation a measure or arrange call goes to: the kind's own
      override, or the coordinator's default. */
  datatype LayoutRoute = Override(tag: KindTag) | CoordinatorDefault

  /** Which implementation a draw call goes to: the kind's own, or nothing. */
  datatype DrawRoute = Forward(tag: KindTag) | NoOp

  /** The routing of `measure_override`. */
  function MeasureRoute(k: UINodeKind): (r: LayoutRoute)
    ensures r.Override? <==> Tag(k) in CustomLayoutTags
    ensures r.Override? ==> r.tag == Tag(k)
  {
    match k
    case Border(_) => Override(BorderTag)
    case Canvas(_) => Override(CanvasTag)
    case Grid(_) => Override(GridTag)
    case ScrollContentPresenter(_) => Override(ScrollContentPresenterTag)
    case ScrollBar(_) => Override(ScrollBarTag)
    case _ => CoordinatorDefault
  }

  /** The routing of `arrange_override`. */
  function ArrangeRoute(k: UINodeKind): (r: LayoutRoute)
    ensures r.Override? <==> Tag(k) in CustomLayoutTags
    ensures r.Override? ==> r.tag == Tag(k)
  {
    match k
    case Border(_) => Override(BorderTag)
    case Canvas(_) => Override(CanvasTag)
    case Grid(_) => Override(GridTag)
    case ScrollContentPresenter(_) => Override(ScrollContentPresenterTag)
    case ScrollBar(_) => Override(ScrollBarTag)
    case _ => CoordinatorDefault
  }

  /** The routing of `draw`. */
  function DrawRouteOf(k: UINodeKind): (r: DrawRoute)
    ensures r.Forward? <==> Tag(k) in DrawingTags
    ensures r.Forward? ==> r.tag == Tag(k)
  {
    match k
    case Text(_) => Forward(TextTag)
    case Border(_) => Forward(BorderTag)
    case Image(_) => Forward(ImageTag)
    case _ => NoOp
  }

  /** Measure and arrange agree on every kind: a kind that measures itself
      also arranges itself, and one that falls back to the coordinator's
      default for one pass does so for the other. */
  lemma MeasureAndArrangeRouteAlike(k: UINodeKind)
    ensures MeasureRoute(k) == ArrangeRoute(k)
    ensures MeasureRoute(k) == (if Tag(k) in CustomLayoutTags then Override(Tag(k)) else CoordinatorDefault)
  {
  }

  /** Containers lay themselves out without drawing anything, except Border,
      which does both; the leaf widgets Text and Image draw but take the
      coordinator's default layout. */
  lemma DrawAndLayoutOverlapOnlyInBorder(k: UINodeKind)
    ensures DrawRouteOf(k).Forward? && MeasureRoute(k).Override? <==> k.Border?
    ensures DrawRouteOf(k).NoOp? && MeasureRoute(k).CoordinatorDefault?
            <==> Tag(k) in {ButtonTag, ScrollViewerTag, WindowTag, UserTag}
  {
  }

  /** The widget bodies a layout pass may call: the five overrides and the
      coordinator's default. The coordinator reference the source passes to
      each of them is captured by these functions. The same record shape
      serves measure (available size in, desired size out) and arrange
      (final size in, used size out). */
  datatype LayoutHandlers = LayoutHandlers(
    border: (Border, Handle, Vec2) -> Vec2,
    canvas: (Canvas, Handle, Vec2) -> Vec2,
    grid: (Grid, Handle, Vec2) -> Vec2,
    scrollContentPresenter: (ScrollContentPresenter, Handle, Vec2) -> Vec2,
    scrollBar: (ScrollBar, Handle, Vec2) -> Vec2,
    coordinatorDefault: (Handle, Vec2) -> Vec2)

  /** `hs` with the one handler that `route` selects taken from `from`
      instead. Used to say that a dispatch reads no other handler. */
  function SpliceLayout(hs: LayoutHandlers, from: LayoutHandlers, route: LayoutRoute): LayoutHandlers
  {
    match route
    case CoordinatorDefault => hs.(coordinatorDefault := from.coordinatorDefault)
    case Override(BorderTag) => hs.(border := from.border)
    case Override(CanvasTag) => hs.(canvas := from.canvas)
    case Override(GridTag) => hs.(grid := from.grid)
    case Override(ScrollContentPresenterTag) => hs.(scrollContentPresenter := from.scrollContentPresenter)
    case Override(ScrollBarTag) => hs.(scrollBar := from.scrollBar)
    case Override(_) => hs
  }

  /** `measure_override` on a kind: a kind routed to its own override gets
      that widget's result on its own payload; every other kind gets the
      coordinator's default. */
  function MeasureOverride(k: UINodeKind, hs: LayoutHandlers, selfHandle: Handle, available: Vec2): (r: Vec2)
    ensures MeasureRoute(k) == Override(BorderTag) ==> r == hs.border(k.border, selfHandle, available)
    ensures MeasureRoute(k) == Override(CanvasTag) ==> r == hs.canvas(k.canvas, selfHandle, available)
    ensures MeasureRoute(k) == Override(GridTag) ==> r == hs.grid(k.grid, selfHandle, available)
    ensures MeasureRoute(k) == Override(ScrollContentPresenterTag) ==>
              r == hs.scrollContentPresenter(k.scp, selfHandle, available)
    ensures MeasureRoute(k) == Override(ScrollBarTag) ==> r == hs.scrollBar(k.scrollBar, selfHandle, available)
    ensures MeasureRoute(k).CoordinatorDefault? ==> r == hs.coordinatorDefault(selfHandle, available)
  {
    match k
    case Border(b) => hs.border(b, selfHandle, available)
    case Canvas(c) => hs.canvas(c, selfHandle, available)
    case Grid(g) => hs.grid(g, selfHandle, available)
    case ScrollContentPresenter(p) => hs.scrollContentPresenter(p, selfHandle, available)
    case ScrollBar(s) => hs.scrollBar(s, selfHandle, available)
    case _ => hs.coordinatorDefault(selfHandle, available)
  }

  /** `arrange_override` on a kind, routed as `measure_override` is. */
  function ArrangeOverride(k: UINodeKind, hs: LayoutHandlers, selfHandle: Handle, finalSize: Vec2): (r: Vec2)
    ensures ArrangeRoute(k) == Override(BorderTag) ==> r == hs.border(k.border, selfHandle, finalSize)
    ensures ArrangeRoute(k) == Override(CanvasTag) ==> r == hs.canvas(k.canvas, selfHandle, finalSize)
    ensures ArrangeRoute(k) == Override(GridTag) ==> r == hs.grid(k.grid, selfHandle, finalSize)
    ensures ArrangeRoute(k) == Override(ScrollContentPresenterTag) ==>
              r == hs.scrollContentPresenter(k.scp, selfHandle, finalSize)
    ensures ArrangeRoute(k) == Override(ScrollBarTag) ==> r == hs.scrollBar(k.scrollBar, selfHandle, finalSize)
    ensures ArrangeRoute(k).CoordinatorDefault? ==> r == hs.coordinatorDefault(selfHandle, finalSize)
  {
    match k
    case Border(b) => hs.border(b, selfHandle, finalSize)
    case Canvas(c) => hs.canvas(c, selfHandle, finalSize)
    case Grid(g) => hs.grid(g, selfHandle, finalSize)
    case ScrollContentPresenter(p) => hs.scrollContentPresenter(p, selfHandle, finalSize)
    case ScrollBar(s) => hs.scrollBar(s, selfHandle, finalSize)
    case _ => hs.coordinatorDefault(selfHandle, finalSize)
  }

  /** A measure call reads only the handler its route selects: any other
      handlers may be swapped for arbitrary ones without changing the size. */
  lemma MeasureReadsOnlySelectedHandler(k: UINodeKind, hs: LayoutHandlers, other: LayoutHandlers, selfHandle: Handle, available: Vec2)
    ensures MeasureOverride(k, SpliceLayout(other, hs, MeasureRoute(k)), selfHandle, available)
         == MeasureOverride(k, hs, selfHandle, available)
  {
  }

  /** An arrange call reads only the handler its route selects. */
  lemma ArrangeReadsOnlySelectedHandler(k: UINodeKind, hs: LayoutHandlers, other: LayoutHandlers, selfHandle: Handle, finalSize: Vec2)
    ensures ArrangeOverride(k, SpliceLayout(other, hs, ArrangeRoute(k)), selfHandle, finalSize)
         == ArrangeOverride(k, hs, selfHandle, finalSize)
  {
  }

  /** The draw bodies of the three drawing kinds. Drawing may update the
      widget (it takes it mutably) and appends commands to the context. */
  datatype DrawHandlers = DrawHandlers(
    text: (Text, Rect, Color) -> (Text, seq<DrawCommand>),
    border: (Border, Rect, Color) -> (Border, seq<DrawCommand>),
    image: (Image, Rect, Color) -> (Image, seq<DrawCommand>))

  /** `hs` with the handler that `route` selects taken from `from`. */
  function SpliceDraw(hs: DrawHandlers, from: DrawHandlers, route: DrawRoute): DrawHandlers
  {
    match route
    case Forward(TextTag) => hs.(text := from.text)
    case Forward(BorderTag) => hs.(border := from.border)
    case Forward(ImageTag) => hs.(image := from.image)
    case _ => hs
  }

  /** The outcome of drawing a kind: the kind afterwards and the commands
      appended to the drawing context. */
  datatype Drawn = Drawn(kind: UINodeKind, commands: seq<DrawCommand>)

  /** `draw` on a kind. A kind routed to its own draw body gets that body's
      updated payload and commands; a kind that does not draw is left as it
      is and adds nothing to the context. */
  function Draw(k: UINodeKind, hs: DrawHandlers, bounds: Rect, color: Color): (r: Drawn)
    ensures Tag(r.kind) == Tag(k)
    ensures DrawRouteOf(k) == Forward(TextTag) ==>
              r == Drawn(Text(hs.text(k.text, bounds, color).0), hs.text(k.text, bounds, color).1)
    ensures DrawRouteOf(k) == Forward(BorderTag) ==>
              r == Drawn(Border(hs.border(k.border, bounds, color).0), hs.border(k.border, bounds, color).1)
    ensures DrawRouteOf(k) == Forward(ImageTag) ==>
              r == Drawn(Image(hs.image(k.image, bounds, color).0), hs.image(k.image, bounds, color).1)
    ensures DrawRouteOf(k).NoOp? ==> r == Drawn(k, [])
  {
    match k
    case Text(t) =>
      var (t', cmds) := hs.text(t, bounds, color); Drawn(Text(t'), cmds)
    case Border(b) =>
      var (b', cmds) := hs.border(b, bounds, color); Drawn(Border(b'), cmds)
    case Image(i) =>
      var (i', cmds) := hs.image(i, bounds, color); Drawn(Image(i'), cmds)
    case _ => Drawn(k, [])
  }

  /** A draw call reads only the handler its route selects. */
  lemma DrawReadsOnlySelectedHandler(k: UINodeKind, hs: DrawHandlers, other: DrawHandlers, bounds: Rect, color: Color)
    ensures Draw(k, SpliceDraw(other, hs, DrawRouteOf(k)), bounds, color) == Draw(k, hs, bounds, color)
  {
  }
}
