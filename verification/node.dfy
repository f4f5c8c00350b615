/** The widget node record: its constructor defaults, its field setters and
    getters, the per-kind checks and downcasts, the kind id, event emission,
    and the delegation of layout to the node's kind. */
module Node {
  import opened Wrappers
  import opened Geometry
  import opened Pool
  import opened Kinds

  /** An interaction event surfaced by a widget (click, value change, ...). */
  type UIEvent(==)

  /** The application callback a node may carry. */
  type EventHandler(==)

  /** The identity of a node kind's concrete type. Built-in payload types
      each have their own; a user kind reports the id of its boxed value,
      which the model keeps apart from the built-in ones. */
  datatype TypeId = BuiltinType(tag: KindTag) | UserType(id: nat)

  /** A node of the UI graph. Layout inputs are set by the application;
      layout outputs (desired/actual size and position, screen position and
      the two validity flags) are written by the layout passes. */
  datatype UINode = UINode(
    name: string,
    kind: UINodeKind,
    desiredLocalPosition: Vec2,
    width: Length,
    height: Length,
    screenPosition: Vec2,
    desiredSize: Vec2,
    actualLocalPosition: Vec2,
    actualSize: Vec2,
    minSize: Vec2,
    maxSize: MaxSize,
    color: Color,
    row: nat,
    column: nat,
    verticalAlignment: VerticalAlignment,
    horizontalAlignment: HorizontalAlignment,
    margin: Thickness,
    visibility: Visibility,
    children: seq<Handle>,
    parent: Handle,
    commandIndices: seq<nat>,
    isMouseOver: bool,
    measureValid: bool,
    arrangeValid: bool,
    eventHandler: Option<EventHandler>)

  /** The fields of a node, one constructor per record field. */
  datatype Field =
    | NameField | KindField | DesiredLocalPositionField | WidthField | HeightField
    | ScreenPositionField | DesiredSizeField | ActualLocalPositionField | ActualSizeField
    | MinSizeField | MaxSizeField | ColorField | RowField | ColumnField
    | VerticalAlignmentField | HorizontalAlignmentField | MarginField | VisibilityField
    | ChildrenField | ParentField | CommandIndicesField | IsMouseOverField
    | MeasureValidField | ArrangeValidField | EventHandlerField

  /** Nodes `a` and `b` hold the same value in field `f`. */
  predicate FieldEq(a: UINode, b: UINode, f: Field)
  {
    match f
    case NameField => a.name == b.name
    case KindField => a.kind == b.kind
    case DesiredLocalPositionField => a.desiredLocalPosition == b.desiredLocalPosition
    case WidthField => a.width == b.width
    case HeightField => a.height == b.height
    case ScreenPositionField => a.screenPosition == b.screenPosition
    case DesiredSizeField => a.desiredSize == b.desiredSize
    case ActualLocalPositionField => a.actualLocalPosition == b.actualLocalPosition
    case ActualSizeField => a.actualSize == b.actualSize
    case MinSizeField => a.minSize == b.minSize
    case MaxSizeField => a.maxSize == b.maxSize
    case ColorField => a.color == b.color
    case RowField => a.row == b.row
    case ColumnField => a.column == b.column
    case VerticalAlignmentField => a.verticalAlignment == b.verticalAlignment
    case HorizontalAlignmentField => a.horizontalAlignment == b.horizontalAlignment
    case MarginField => a.margin == b.margin
    case VisibilityField => a.visibility == b.visibility
    case ChildrenField => a.children == b.children
    case ParentField => a.parent == b.parent
    case CommandIndicesField => a.commandIndices == b.commandIndices
    case IsMouseOverField => a.isMouseOver == b.isMouseOver
    case MeasureValidField => a.measureValid == b.measureValid
    case ArrangeValidField => a.arrangeValid == b.arrangeValid
    case EventHandlerField => a.eventHandler == b.eventHandler
  }

  /** Node `a` with field `f` replaced by the value it has in `src`. */
  function Overwrite(a: UINode, src: UINode, f: Field): UINode
  {
    match f
    case NameField => a.(name := src.name)
    case KindField => a.(kind := src.kind)
    case DesiredLocalPositionField => a.(desiredLocalPosition := src.desiredLocalPosition)
    case WidthField => a.(width := src.width)
    case HeightField => a.(height := src.height)
    case ScreenPositionField => a.(screenPosition := src.screenPosition)
    case DesiredSizeField => a.(desiredSize := src.desiredSize)
    case ActualLocalPositionField => a.(actualLocalPosition := src.actualLocalPosition)
    case ActualSizeField => a.(actualSize := src.actualSize)
    case MinSizeField => a.(minSize := src.minSize)
    case MaxSizeField => a.(maxSize := src.maxSize)
    case ColorField => a.(color := src.color)
    case RowField => a.(row := src.row)
    case ColumnField => a.(column := src.column)
    case VerticalAlignmentField => a.(verticalAlignment := src.verticalAlignment)
    case HorizontalAlignmentField => a.(horizontalAlignment := src.horizontalAlignment)
    case MarginField => a.(margin := src.margin)
    case VisibilityField => a.(visibility := src.visibility)
    case ChildrenField => a.(children := src.children)
    case ParentField => a.(parent := src.parent)
    case CommandIndicesField => a.(commandIndices := src.commandIndices)
    case IsMouseOverField => a.(isMouseOver := src.isMouseOver)
    case MeasureValidField => a.(measureValid := src.measureValid)
    case ArrangeValidField => a.(arrangeValid := src.arrangeValid)
    case EventHandlerField => a.(eventHandler := src.eventHandler)
  }

  /** Node `b` is node `a` with at most field `f` changed. */
  predicate SameExcept(a: UINode, b: UINode, f: Field)
  {
    b == Overwrite(a, b, f)
  }

  /** Every field other than the changed one keeps its value. */
  lemma SameExceptKeepsOthers(a: UINode, b: UINode, f: Field, g: Field)
    requires SameExcept(a, b, f)
    requires g != f
    ensures FieldEq(a, b, g)
  {
  }

  /** If the one field that may change did not, nothing changed. */
  lemma FieldsDetermineNode(a: UINode, b: UINode, f: Field)
    requires SameExcept(a, b, f)
    requires FieldEq(a, b, f)
    ensures a == b
  {
  }

  // ---------------------------------------------------------------------
  // Construction

  /** A new node of the given kind, with the default layout inputs, zero
      layout outputs, no links and both validity flags cleared. */
  function New(kind: UINodeKind): (r: UINode)
    ensures r.kind == kind && r.name == ""
    ensures r.width == Auto && r.height == Auto
    ensures r.minSize == Vec2(0.0, 0.0) && r.maxSize == MaxSize(Unbounded, Unbounded)
    ensures r.horizontalAlignment == HStretch && r.verticalAlignment == VStretch
    ensures r.margin == Thickness(0.0, 0.0, 0.0, 0.0) && r.visibility == Visible
    ensures r.color == Color(255, 255, 255, 255)
    ensures r.row == 0 && r.column == 0
    ensures r.children == [] && r.parent == NONE
    ensures !r.measureValid && !r.arrangeValid
    ensures r.desiredLocalPosition == Vec2(0.0, 0.0) && r.screenPosition == Vec2(0.0, 0.0)
    ensures r.desiredSize == Vec2(0.0, 0.0) && r.actualLocalPosition == Vec2(0.0, 0.0)
    ensures r.actualSize == Vec2(0.0, 0.0)
    ensures r.commandIndices == [] && !r.isMouseOver && r.eventHandler == None
  {
    UINode(
      name := "",
      kind := kind,
      desiredLocalPosition := ZeroVec2,
      width := Auto,
      height := Auto,
      screenPosition := ZeroVec2,
      desiredSize := ZeroVec2,
      actualLocalPosition := ZeroVec2,
      actualSize := ZeroVec2,
      minSize := Vec2(0.0, 0.0),
      maxSize := UnboundedSize,
      color := White,
      row := 0,
      column := 0,
      verticalAlignment := VStretch,
      horizontalAlignment := HStretch,
      margin := ZeroThickness,
      visibility := Visible,
      children := [],
      parent := NONE,
      commandIndices := [],
      isMouseOver := false,
      measureValid := false,
      arrangeValid := false,
      eventHandler := None)
  }

  /** Two new nodes differ only in their kind. */
  lemma NewNodesDifferOnlyInKind(k1: UINodeKind, k2: UINodeKind)
    ensures SameExcept(New(k1), New(k2), KindField)
    ensures New(k1) == New(k2) <==> k1 == k2
  {
  }

  // ---------------------------------------------------------------------
  // Setters and getters

  function SetColor(n: UINode, color: Color): (r: UINode)
    ensures r.color == color && SameExcept(n, r, ColorField)
  {
    n.(color := color)
  }

  function SetWidth(n: UINode, width: Length): (r: UINode)
    ensures r.width == width && SameExcept(n, r, WidthField)
  {
    n.(width := width)
  }

  function SetHeight(n: UINode, height: Length): (r: UINode)
    ensures r.height == height && SameExcept(n, r, HeightField)
  {
    n.(height := height)
  }

  function SetDesiredLocalPosition(n: UINode, pos: Vec2): (r: UINode)
    ensures r.desiredLocalPosition == pos && SameExcept(n, r, DesiredLocalPositionField)
  {
    n.(desiredLocalPosition := pos)
  }

  function SetVerticalAlignment(n: UINode, valign: VerticalAlignment): (r: UINode)
    ensures r.verticalAlignment == valign && SameExcept(n, r, VerticalAlignmentField)
  {
    n.(verticalAlignment := valign)
  }

  function SetHorizontalAlignment(n: UINode, halign: HorizontalAlignment): (r: UINode)
    ensures r.horizontalAlignment == halign && SameExcept(n, r, HorizontalAlignmentField)
  {
    n.(horizontalAlignment := halign)
  }

  function SetVisibility(n: UINode, visibility: Visibility): (r: UINode)
    ensures r.visibility == visibility && SameExcept(n, r, VisibilityField)
  {
    n.(visibility := visibility)
  }

  function GetKind(n: UINode): UINodeKind
  {
    n.kind
  }

  /** A write through the mutable reference `get_kind_mut` hands out: the
      kind is replaced and nothing else in the node moves. */
  function SetKindThroughMut(n: UINode, kind: UINodeKind): (r: UINode)
    ensures GetKind(r) == kind && SameExcept(n, r, KindField)
  {
    n.(kind := kind)
  }

  function GetVisibility(n: UINode): Visibility
  {
    n.visibility
  }

  /** Reading the visibility back returns what was last set, and setting the
      value already held changes nothing. */
  lemma VisibilityRoundTrip(n: UINode, v: Visibility)
    ensures GetVisibility(SetVisibility(n, v)) == v
    ensures SetVisibility(n, GetVisibility(n)) == n
  {
  }

  /** Every setter leaves the layout outputs and both validity flags alone:
      none of them invalidates the node's cached measure or arrange result. */
  lemma SettersKeepLayoutState(n: UINode, f: Field, r: UINode)
    requires SameExcept(n, r, f)
    requires f in {ColorField, WidthField, HeightField, DesiredLocalPositionField,
                   VerticalAlignmentField, HorizontalAlignmentField, VisibilityField}
    ensures r.measureValid == n.measureValid && r.arrangeValid == n.arrangeValid
    ensures r.desiredSize == n.desiredSize && r.actualSize == n.actualSize
    ensures r.screenPosition == n.screenPosition && r.kind == n.kind
  {
  }

  /** The node's rectangle on screen: its absolute position and the size the
      arrange pass gave it. */
  function GetScreenBounds(n: UINode): (r: Rect)
    ensures (r.x, r.y) == (n.screenPosition.x, n.screenPosition.y)
    ensures (r.w, r.h) == (n.actualSize.x, n.actualSize.y)
  {
    Rect(n.screenPosition.x, n.screenPosition.y, n.actualSize.x, n.actualSize.y)
  }

  /** The screen bounds depend on the screen position and actual size only,
      so no setter moves them. */
  lemma ScreenBoundsFrame(a: UINode, b: UINode)
    requires FieldEq(a, b, ScreenPositionField) && FieldEq(a, b, ActualSizeField)
    ensures GetScreenBounds(a) == GetScreenBounds(b)
  {
  }

  // ---------------------------------------------------------------------
  // Generated kind checks and downcasts, in the order they are generated.

  function IsScrollBar(n: UINode): (r: bool)
    ensures r <==> Tag(n.kind) == ScrollBarTag
  { n.kind.ScrollBar? }
  function IsText(n: UINode): (r: bool)
    ensures r <==> Tag(n.kind) == TextTag
  { n.kind.Text? }
  function IsBorder(n: UINode): (r: bool)
    ensures r <==> Tag(n.kind) == BorderTag
  { n.kind.Border? }
  function IsButton(n: UINode): (r: bool)
    ensures r <==> Tag(n.kind) == ButtonTag
  { n.kind.Button? }
  function IsScrollViewer(n: UINode): (r: bool)
    ensures r <==> Tag(n.kind) == ScrollViewerTag
  { n.kind.ScrollViewer? }
  function IsImage(n: UINode): (r: bool)
    ensures r <==> Tag(n.kind) == ImageTag
  { n.kind.Image? }
  function IsCanvas(n: UINode): (r: bool)
    ensures r <==> Tag(n.kind) == CanvasTag
  { n.kind.Canvas? }
  function IsScrollContentPresenter(n: UINode): (r: bool)
    ensures r <==> Tag(n.kind) == ScrollContentPresenterTag
  { n.kind.ScrollContentPresenter? }
  function IsWindow(n: UINode): (r: bool)
    ensures r <==> Tag(n.kind) == WindowTag
  { n.kind.Window? }

  /** The kinds with a generated check and downcast: all but Grid and User. */
  const GeneratedTags: set<KindTag> :=
    {ScrollBarTag, TextTag, BorderTag, ButtonTag, ScrollViewerTag, ImageTag,
     CanvasTag, ScrollContentPresenterTag, WindowTag}

  /** The results of the generated checks on `n`, in generation order. */
  function GeneratedChecks(n: UINode): seq<bool>
  {
    [IsScrollBar(n), IsText(n), IsBorder(n), IsButton(n), IsScrollViewer(n),
     IsImage(n), IsCanvas(n), IsScrollContentPresenter(n), IsWindow(n)]
  }

  /** The tag each generated check tests for, in generation order. */
  const GeneratedOrder: seq<KindTag> :=
    [ScrollBarTag, TextTag, BorderTag, ButtonTag, ScrollViewerTag, ImageTag,
     CanvasTag, ScrollContentPresenterTag, WindowTag]

  /** Each generated check holds exactly when the node's tag is the one it
      was generated for; so at most one of them holds, and one holds exactly
      when the node is of a kind with a generated check, never for Grid or
      User. */
  lemma GeneratedChecksMatchTag(n: UINode)
    ensures |GeneratedChecks(n)| == |GeneratedOrder|
    ensures forall i :: 0 <= i < |GeneratedOrder| ==> (GeneratedChecks(n)[i] <==> Tag(n.kind) == GeneratedOrder[i])
    ensures forall i, j :: 0 <= i < j < |GeneratedOrder| && GeneratedChecks(n)[i] ==> !GeneratedChecks(n)[j]
    ensures (exists i :: 0 <= i < |GeneratedOrder| && GeneratedChecks(n)[i]) <==> Tag(n.kind) in GeneratedTags
    ensures n.kind.Grid? || n.kind.User? ==> forall i :: 0 <= i < |GeneratedOrder| ==> !GeneratedChecks(n)[i]
  {
    var checks := GeneratedChecks(n);
    forall i | 0 <= i < |GeneratedOrder|
      ensures checks[i] <==> Tag(n.kind) == GeneratedOrder[i]
    {
    }
    if Tag(n.kind) in GeneratedTags {
      assert Tag(n.kind) in GeneratedOrder;
      var i :| 0 <= i < |GeneratedOrder| && GeneratedOrder[i] == Tag(n.kind);
      assert checks[i];
    }
  }

  /** The downcasts: each returns the node's payload and requires the node to
      be of its kind (on any other kind the source panics). */
  function AsScrollBar(n: UINode): (p: ScrollBar)
    requires IsScrollBar(n)
    ensures n.kind == ScrollBar(p)
  { n.kind.scrollBar }

  function AsText(n: UINode): (p: Text)
    requires IsText(n)
    ensures n.kind == Text(p)
  { n.kind.text }

  function AsBorder(n: UINode): (p: Border)
    requires IsBorder(n)
    ensures n.kind == Border(p)
  { n.kind.border }

  function AsButton(n: UINode): (p: Button)
    requires IsButton(n)
    ensures n.kind == Button(p)
  { n.kind.button }

  function AsScrollViewer(n: UINode): (p: ScrollViewer)
    requires IsScrollViewer(n)
    ensures n.kind == ScrollViewer(p)
  { n.kind.scrollViewer }

  function AsImage(n: UINode): (p: Image)
    requires IsImage(n)
    ensures n.kind == Image(p)
  { n.kind.image }

  function AsCanvas(n: UINode): (p: Canvas)
    requires IsCanvas(n)
    ensures n.kind == Canvas(p)
  { n.kind.canvas }

  function AsScrollContentPresenter(n: UINode): (p: ScrollContentPresenter)
    requires IsScrollContentPresenter(n)
    ensures n.kind == ScrollContentPresenter(p)
  { n.kind.scp }

  function AsWindow(n: UINode): (p: Window)
    requires IsWindow(n)
    ensures n.kind == Window(p)
  { n.kind.window }

  /** The mutable downcasts: a write through the reference they return
      replaces the payload, keeps the kind's variant and touches nothing else
      in the node. */
  function WithScrollBar(n: UINode, p: ScrollBar): (r: UINode)
    requires IsScrollBar(n)
    ensures IsScrollBar(r) && AsScrollBar(r) == p && SameExcept(n, r, KindField)
  { n.(kind := ScrollBar(p)) }

  function WithText(n: UINode, p: Text): (r: UINode)
    requires IsText(n)
    ensures IsText(r) && AsText(r) == p && SameExcept(n, r, KindField)
  { n.(kind := Text(p)) }

  function WithBorder(n: UINode, p: Border): (r: UINode)
    requires IsBorder(n)
    ensures IsBorder(r) && AsBorder(r) == p && SameExcept(n, r, KindField)
  { n.(kind := Border(p)) }

  function WithButton(n: UINode, p: Button): (r: UINode)
    requires IsButton(n)
    ensures IsButton(r) && AsButton(r) == p && SameExcept(n, r, KindField)
  { n.(kind := Button(p)) }

  function WithScrollViewer(n: UINode, p: ScrollViewer): (r: UINode)
    requires IsScrollViewer(n)
    ensures IsScrollViewer(r) && AsScrollViewer(r) == p && SameExcept(n, r, KindField)
  { n.(kind := ScrollViewer(p)) }

  function WithImage(n: UINode, p: Image): (r: UINode)
    requires IsImage(n)
    ensures IsImage(r) && AsImage(r) == p && SameExcept(n, r, KindField)
  { n.(kind := Image(p)) }

  function WithCanvas(n: UINode, p: Canvas): (r: UINode)
    requires IsCanvas(n)
    ensures IsCanvas(r) && AsCanvas(r) == p && SameExcept(n, r, KindField)
  { n.(kind := Canvas(p)) }

  function WithScrollContentPresenter(n: UINode, p: ScrollContentPresenter): (r: UINode)
    requires IsScrollContentPresenter(n)
    ensures IsScrollContentPresenter(r) && AsScrollContentPresenter(r) == p && SameExcept(n, r, KindField)
  { n.(kind := ScrollContentPresenter(p)) }

  function WithWindow(n: UINode, p: Window): (r: UINode)
    requires IsWindow(n)
    ensures IsWindow(r) && AsWindow(r) == p && SameExcept(n, r, KindField)
  { n.(kind := Window(p)) }

  /** Writing back the payload a downcast read leaves the node as it was. */
  lemma DowncastWriteBackIsIdentity(n: UINode)
    ensures IsScrollBar(n) ==> WithScrollBar(n, AsScrollBar(n)) == n
    ensures IsText(n) ==> WithText(n, AsText(n)) == n
    ensures IsBorder(n) ==> WithBorder(n, AsBorder(n)) == n
    ensures IsButton(n) ==> WithButton(n, AsButton(n)) == n
    ensures IsScrollViewer(n) ==> WithScrollViewer(n, AsScrollViewer(n)) == n
    ensures IsImage(n) ==> WithImage(n, AsImage(n)) == n
    ensures IsCanvas(n) ==> WithCanvas(n, AsCanvas(n)) == n
    ensures IsScrollContentPresenter(n) ==> WithScrollContentPresenter(n, AsScrollContentPresenter(n)) == n
    ensures IsWindow(n) ==> WithWindow(n, AsWindow(n)) == n
  {
  }

  // ---------------------------------------------------------------------
  // Kind id

  /** The type id of the node's payload. `userTypeOf` gives the dynamic type
      of a boxed user kind. */
  function GetKindId(n: UINode, userTypeOf: CustomKind -> nat): (r: TypeId)
    ensures r.BuiltinType? <==> !n.kind.User?
    ensures r.BuiltinType? ==> r.tag == Tag(n.kind)
    ensures n.kind.User? ==> r == UserType(userTypeOf(n.kind.user))
  {
    match n.kind
    case ScrollBar(_) => BuiltinType(ScrollBarTag)
    case Text(_) => BuiltinType(TextTag)
    case Border(_) => BuiltinType(BorderTag)
    case Button(_) => BuiltinType(ButtonTag)
    case ScrollViewer(_) => BuiltinType(ScrollViewerTag)
    case Image(_) => BuiltinType(ImageTag)
    case Grid(_) => BuiltinType(GridTag)
    case Canvas(_) => BuiltinType(CanvasTag)
    case ScrollContentPresenter(_) => BuiltinType(ScrollContentPresenterTag)
    case Window(_) => BuiltinType(WindowTag)
    case User(u) => UserType(userTypeOf(u))
  }

  /** Nodes with equal kind ids have the same variant, and two built-in nodes
      of the same variant have equal kind ids. */
  lemma KindIdIdentifiesVariant(a: UINode, b: UINode, userTypeOf: CustomKind -> nat)
    ensures GetKindId(a, userTypeOf) == GetKindId(b, userTypeOf) ==> Tag(a.kind) == Tag(b.kind)
    ensures Tag(a.kind) == Tag(b.kind) && !a.kind.User? ==> GetKindId(a, userTypeOf) == GetKindId(b, userTypeOf)
  {
  }

  // ---------------------------------------------------------------------
  // Event emission

  /** The `emit_event` bodies of the eleven kinds. Each may update its widget
      (draining its pending event) and yields at most one event. */
  datatype EventSources = EventSources(
    text: Text -> (Text, Option<UIEvent>),
    border: Border -> (Border, Option<UIEvent>),
    button: Button -> (Button, Option<UIEvent>),
    scrollBar: ScrollBar -> (ScrollBar, Option<UIEvent>),
    scrollViewer: ScrollViewer -> (ScrollViewer, Option<UIEvent>),
    image: Image -> (Image, Option<UIEvent>),
    grid: Grid -> (Grid, Option<UIEvent>),
    canvas: Canvas -> (Canvas, Option<UIEvent>),
    scrollContentPresenter: ScrollContentPresenter -> (ScrollContentPresenter, Option<UIEvent>),
    window: Window -> (Window, Option<UIEvent>),
    user: CustomKind -> (CustomKind, Option<UIEvent>))

  /** `es` with the source for kind `t` taken from `from`. */
  function SpliceSources(es: EventSources, from: EventSources, t: KindTag): EventSources
  {
    match t
    case TextTag => es.(text := from.text)
    case BorderTag => es.(border := from.border)
    case ButtonTag => es.(button := from.button)
    case ScrollBarTag => es.(scrollBar := from.scrollBar)
    case ScrollViewerTag => es.(scrollViewer := from.scrollViewer)
    case ImageTag => es.(image := from.image)
    case GridTag => es.(grid := from.grid)
    case CanvasTag => es.(canvas := from.canvas)
    case ScrollContentPresenterTag => es.(scrollContentPresenter := from.scrollContentPresenter)
    case WindowTag => es.(window := from.window)
    case UserTag => es.(user := from.user)
  }

  /** The node after emitting, and the event emitted, if any. */
  datatype Emitted = Emitted(node: UINode, event: Option<UIEvent>)

  /** `emit_event` on a node: forwards to the payload of the node's own kind,
      whose updated payload and event are the result. The variant never
      changes and nothing outside the kind moves. */
  function EmitEvent(n: UINode, es: EventSources): (r: Emitted)
    ensures Tag(r.node.kind) == Tag(n.kind)
    ensures SameExcept(n, r.node, KindField)
    ensures n.kind.Text? ==>
              r == Emitted(n.(kind := Text(es.text(n.kind.text).0)), es.text(n.kind.text).1)
    ensures n.kind.Border? ==>
              r == Emitted(n.(kind := Border(es.border(n.kind.border).0)), es.border(n.kind.border).1)
    ensures n.kind.Button? ==>
              r == Emitted(n.(kind := Button(es.button(n.kind.button).0)), es.button(n.kind.button).1)
    ensures n.kind.ScrollBar? ==>
              r == Emitted(n.(kind := ScrollBar(es.scrollBar(n.kind.scrollBar).0)), es.scrollBar(n.kind.scrollBar).1)
    ensures n.kind.ScrollViewer? ==>
              r == Emitted(n.(kind := ScrollViewer(es.scrollViewer(n.kind.scrollViewer).0)), es.scrollViewer(n.kind.scrollViewer).1)
    ensures n.kind.Image? ==>
              r == Emitted(n.(kind := Image(es.image(n.kind.image).0)), es.image(n.kind.image).1)
    ensures n.kind.Grid? ==>
              r == Emitted(n.(kind := Grid(es.grid(n.kind.grid).0)), es.grid(n.kind.grid).1)
    ensures n.kind.Canvas? ==>
              r == Emitted(n.(kind := Canvas(es.canvas(n.kind.canvas).0)), es.canvas(n.kind.canvas).1)
    ensures n.kind.ScrollContentPresenter? ==>
              r == Emitted(n.(kind := ScrollContentPresenter(es.scrollContentPresenter(n.kind.scp).0)), es.scrollContentPresenter(n.kind.scp).1)
    ensures n.kind.Window? ==>
              r == Emitted(n.(kind := Window(es.window(n.kind.window).0)), es.window(n.kind.window).1)
    ensures n.kind.User? ==>
              r == Emitted(n.(kind := User(es.user(n.kind.user).0)), es.user(n.kind.user).1)
  {
    match n.kind
    case Text(p) => var (p', e) := es.text(p); Emitted(n.(kind := Text(p')), e)
    case Border(p) => var (p', e) := es.border(p); Emitted(n.(kind := Border(p')), e)
    case Button(p) => var (p', e) := es.button(p); Emitted(n.(kind := Button(p')), e)
    case ScrollBar(p) => var (p', e) := es.scrollBar(p); Emitted(n.(kind := ScrollBar(p')), e)
    case ScrollViewer(p) => var (p', e) := es.scrollViewer(p); Emitted(n.(kind := ScrollViewer(p')), e)
    case Image(p) => var (p', e) := es.image(p); Emitted(n.(kind := Image(p')), e)
    case Grid(p) => var (p', e) := es.grid(p); Emitted(n.(kind := Grid(p')), e)
    case Canvas(p) => var (p', e) := es.canvas(p); Emitted(n.(kind := Canvas(p')), e)
    case ScrollContentPresenter(p) =>
      var (p', e) := es.scrollContentPresenter(p); Emitted(n.(kind := ScrollContentPresenter(p')), e)
    case Window(p) => var (p', e) := es.window(p); Emitted(n.(kind := Window(p')), e)
    case User(p) => var (p', e) := es.user(p); Emitted(n.(kind := User(p')), e)
  }

  /** Emission reads only the source of the node's own kind: the other ten
      may be anything. */
  lemma EmitReadsOnlyOwnSource(n: UINode, es: EventSources, other: EventSources)
    ensures EmitEvent(n, SpliceSources(other, es, Tag(n.kind))) == EmitEvent(n, es)
  {
  }

  // ---------------------------------------------------------------------
  // Layout delegation

  /** A node measures by handing the call to its kind. */
  function NodeMeasureOverride(n: UINode, hs: LayoutHandlers, selfHandle: Handle, available: Vec2): (r: Vec2)
    ensures r == MeasureOverride(n.kind, hs, selfHandle, available)
    ensures MeasureRoute(n.kind).CoordinatorDefault? ==> r == hs.coordinatorDefault(selfHandle, available)
  {
    MeasureOverride(n.kind, hs, selfHandle, available)
  }

  /** A node arranges by handing the call to its kind. */
  function NodeArrangeOverride(n: UINode, hs: LayoutHandlers, selfHandle: Handle, finalSize: Vec2): (r: Vec2)
    ensures r == ArrangeOverride(n.kind, hs, selfHandle, finalSize)
    ensures ArrangeRoute(n.kind).CoordinatorDefault? ==> r == hs.coordinatorDefault(selfHandle, finalSize)
  {
    ArrangeOverride(n.kind, hs, selfHandle, finalSize)
  }
}
