/** Sequences of setter calls on one node, as application code issues them
    between frames, and what such a sequence can and cannot change. */
module Edits {
  import opened Geometry
  import opened Pool
  import opened Kinds
  import Node

  /** One call of a field setter on a node. */
  datatype Edit =
    | SetColor(color: Color)
    | SetWidth(width: Length)
    | SetHeight(height: Length)
    | SetDesiredLocalPosition(pos: Vec2)
    | SetVerticalAlignment(valign: VerticalAlignment)
    | SetHorizontalAlignment(halign: HorizontalAlignment)
    | SetVisibility(visibility: Visibility)

  /** The fields a setter may write. */
  const SetterFields: set<Node.Field> :=
    {Node.ColorField, Node.WidthField, Node.HeightField, Node.DesiredLocalPositionField,
     Node.VerticalAlignmentField, Node.HorizontalAlignmentField, Node.VisibilityField}

  /** The field an edit writes. */
  function Edited(e: Edit): (f: Node.Field)
    ensures f in SetterFields
  {
    match e
    case SetColor(_) => Node.ColorField
    case SetWidth(_) => Node.WidthField
    case SetHeight(_) => Node.HeightField
    case SetDesiredLocalPosition(_) => Node.DesiredLocalPositionField
    case SetVerticalAlignment(_) => Node.VerticalAlignmentField
    case SetHorizontalAlignment(_) => Node.HorizontalAlignmentField
    case SetVisibility(_) => Node.VisibilityField
  }

  /** Node `n` holds the value edit `e` writes. */
  predicate Holds(n: Node.UINode, e: Edit)
  {
    match e
    case SetColor(c) => n.color == c
    case SetWidth(w) => n.width == w
    case SetHeight(h) => n.height == h
    case SetDesiredLocalPosition(p) => n.desiredLocalPosition == p
    case SetVerticalAlignment(v) => n.verticalAlignment == v
    case SetHorizontalAlignment(h) => n.horizontalAlignment == h
    case SetVisibility(v) => n.visibility == v
  }

  /** Performs one setter call. */
  function Apply(n: Node.UINode, e: Edit): (r: Node.UINode)
    ensures Holds(r, e) && Node.SameExcept(n, r, Edited(e))
  {
    match e
    case SetColor(c) => Node.SetColor(n, c)
    case SetWidth(w) => Node.SetWidth(n, w)
    case SetHeight(h) => Node.SetHeight(n, h)
    case SetDesiredLocalPosition(p) => Node.SetDesiredLocalPosition(n, p)
    case SetVerticalAlignment(v) => Node.SetVerticalAlignment(n, v)
    case SetHorizontalAlignment(h) => Node.SetHorizontalAlignment(n, h)
    case SetVisibility(v) => Node.SetVisibility(n, v)
  }

  /** Performs the setter calls in order. */
  function ApplyAll(n: Node.UINode, es: seq<Edit>): Node.UINode
    decreases |es|
  {
    if es == [] then n else ApplyAll(Apply(n, es[0]), es[1..])
  }

  /** A field no edit in the sequence writes keeps its value. */
  lemma {:induction false} ApplyAllFrame(n: Node.UINode, es: seq<Edit>, g: Node.Field)
    requires forall i :: 0 <= i < |es| ==> Edited(es[i]) != g
    ensures Node.FieldEq(n, ApplyAll(n, es), g)
    decreases |es|
  {
    if es != [] {
      var n1 := Apply(n, es[0]);
      Node.SameExceptKeepsOthers(n, n1, Edited(es[0]), g);
      assert forall i :: 0 <= i < |es[1..]| ==> es[1..][i] == es[i + 1];
      ApplyAllFrame(n1, es[1..], g);
    }
  }

  /** No sequence of setter calls clears or sets a validity flag: setters do
      not invalidate the node's cached measure or arrange result. */
  lemma EditsKeepValidity(n: Node.UINode, es: seq<Edit>)
    ensures ApplyAll(n, es).measureValid == n.measureValid
    ensures ApplyAll(n, es).arrangeValid == n.arrangeValid
  {
    ApplyAllFrame(n, es, Node.MeasureValidField);
    ApplyAllFrame(n, es, Node.ArrangeValidField);
  }

  /** No sequence of setter calls changes the node's kind. */
  lemma EditsKeepKind(n: Node.UINode, es: seq<Edit>)
    ensures ApplyAll(n, es).kind == n.kind
  {
    ApplyAllFrame(n, es, Node.KindField);
  }

  /** No sequence of setter calls changes the node's tree links. */
  lemma EditsKeepLinks(n: Node.UINode, es: seq<Edit>)
    ensures ApplyAll(n, es).children == n.children
    ensures ApplyAll(n, es).parent == n.parent
  {
    ApplyAllFrame(n, es, Node.ChildrenField);
    ApplyAllFrame(n, es, Node.ParentField);
  }

  /** No sequence of setter calls moves the node's screen bounds, which only
      the layout passes write. */
  lemma EditsKeepScreenBounds(n: Node.UINode, es: seq<Edit>)
    ensures Node.GetScreenBounds(ApplyAll(n, es)) == Node.GetScreenBounds(n)
  {
    ApplyAllFrame(n, es, Node.ScreenPositionField);
    ApplyAllFrame(n, es, Node.ActualSizeField);
    Node.ScreenBoundsFrame(n, ApplyAll(n, es));
  }

  /** A new node stays a dirty, detached root of its kind whatever setters
      are called on it. */
  lemma EditedNewNodeStaysDetached(k: UINodeKind, es: seq<Edit>)
    ensures var r := ApplyAll(Node.New(k), es);
      && r.kind == k && r.parent == NONE && r.children == []
      && !r.measureValid && !r.arrangeValid
  {
    EditsKeepValidity(Node.New(k), es);
    EditsKeepKind(Node.New(k), es);
    EditsKeepLinks(Node.New(k), es);
  }

  /** Running a sequence and then one more edit is running the longer
      sequence. */
  lemma {:induction false} ApplyAllSnoc(n: Node.UINode, es: seq<Edit>, e: Edit)
    ensures ApplyAll(n, es + [e]) == Apply(ApplyAll(n, es), e)
    decreases |es|
  {
    if es == [] {
      assert es + [e] == [e];
      assert [e][1..] == [];
    } else {
      assert (es + [e])[0] == es[0];
      assert (es + [e])[1..] == es[1..] + [e];
      ApplyAllSnoc(Apply(n, es[0]), es[1..], e);
    }
  }

  /** The visibility the last `SetVisibility` in `es` wrote, or `initial`
      when there is none. */
  function LastVisibility(es: seq<Edit>, initial: Visibility): Visibility
    decreases |es|
  {
    if es == [] then initial
    else if es[|es| - 1].SetVisibility? then es[|es| - 1].visibility
    else LastVisibility(es[..|es| - 1], initial)
  }

  /** After any sequence of setter calls, the visibility is the one the last
      `set_visibility` wrote; other setters do not affect it. */
  lemma {:induction false} VisibilityIsLastSet(n: Node.UINode, es: seq<Edit>)
    ensures Node.GetVisibility(ApplyAll(n, es)) == LastVisibility(es, n.visibility)
    decreases |es|
  {
    if es != [] {
      var init, last := es[..|es| - 1], es[|es| - 1];
      assert es == init + [last];
      ApplyAllSnoc(n, init, last);
      VisibilityIsLastSet(n, init);
      if !last.SetVisibility? {
        Node.SameExceptKeepsOthers(ApplyAll(n, init), ApplyAll(n, es), Edited(last), Node.VisibilityField);
      }
    }
  }

  /** `get_visibility` after `set_visibility(v)` returns `v`, whatever came
      before. */
  lemma LastVisibilityWins(n: Node.UINode, es: seq<Edit>, v: Visibility)
    ensures Node.GetVisibility(ApplyAll(n, es + [SetVisibility(v)])) == v
  {
    ApplyAllSnoc(n, es, SetVisibility(v));
  }
}
