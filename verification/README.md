# rg3d UI node: kind dispatch, defaults and field access

This project models the widget node of rg3d's retained-mode UI (`src/gui/node.rs`) in Dafny. That file defines three things:

- `UINodeKind`, a closed sum of ten built-in widget kinds plus an open `User` kind.
- The dispatch that routes each kind's `draw`, `measure_override`, `arrange_override` and `emit_event` calls.
- The `UINode` record: its constructor defaults, field setters and getters, and the macro-generated `is_X` / `as_X` / `as_X_mut` accessors.

The widgets' own bodies and the coordinator's default layout live in other files. Here they are opaque.

- Payloads are abstract types: `Text`, `Border`, `CustomKind`, and so on.
- Each body a dispatch can call is a function parameter, collected in a record: `LayoutHandlers`, `DrawHandlers` or `EventSources`.
- A routing table (`MeasureRoute`, `ArrangeRoute`, `DrawRouteOf`) says which implementation a kind selects. It returns either `Override(tag)` or `CoordinatorDefault` for layout, and `Forward(tag)` or `NoOp` for draw.
- The executing dispatch is tied to its table by lemmas. These say that the call reads only the handler the table selects, and that a `CoordinatorDefault` route returns the coordinator's result.

The node is an immutable record, and every setter is a pure function. "Only this field changes" is stated as `Node.SameExcept(a, b, f)`: `b` is `a` with at most field `f` overwritten. `Node.FieldsDetermineNode` shows that this frame leaves no field out. The `Edits` module models sequences of setter calls made by application code. Its lemmas prove by induction that no such sequence changes any of these:

- the kind;
- the tree links;
- the validity flags;
- the screen bounds.

They also prove that the visibility read back is the one the last `set_visibility` wrote.

Value choices:
- An explicit width or height of NaN ("automatic") is `Length = Option<real>`, with `None` for NaN.
- The infinite maximum size is `MaxSize(Unbounded, Unbounded)`.
- Vectors hold `real`s. Nothing in this file does arithmetic on them.

None of the setters in `node.rs` resets `measure_valid` or `arrange_valid`: each writes its own field and nothing else. `Node.SettersKeepLayoutState` and `Edits.EditsKeepValidity` state this behaviour as proved properties.

The plain getters `get_kind` (src/gui/node.rs:211-214) and `get_visibility` (src/gui/node.rs:241-244) are `Node.GetKind` and `Node.GetVisibility`. Each returns the field it names. What they return is stated through the writes they pair with: `Node.SetKindThroughMut` (the kind read after a write is the kind written), `Node.VisibilityRoundTrip`, and `Edits.VisibilityIsLastSet` for a whole sequence of setter calls.

## Model

| member | source | states |
|---|---|---|
| Kinds.MeasureRoute | src/gui/node.rs:46-55 | measure goes to the kind's own override exactly for Border, Canvas, Grid, ScrollContentPresenter and ScrollBar; the override selected is always the node's own kind |
| Kinds.ArrangeRoute | src/gui/node.rs:57-66 | arrange goes to the kind's own override exactly for the five container kinds, to the coordinator's default otherwise |
| Kinds.DrawRouteOf | src/gui/node.rs:34-43 | draw is forwarded exactly for Text, Border and Image, always to the node's own kind; every other kind is a no-op |
| Kinds.MeasureAndArrangeRouteAlike | src/gui/node.rs:45-67 | measure and arrange route every kind the same way: own override iff the kind is a custom-layout container, else the coordinator default |
| Kinds.DrawAndLayoutOverlapOnlyInBorder | src/gui/node.rs:34-67 | Border is the only kind that both draws and lays itself out; Button, ScrollViewer, Window and User do neither |
| Kinds.MeasureOverride | src/gui/node.rs:46-55 | each container kind (Border, Canvas, Grid, ScrollContentPresenter, ScrollBar) returns its own widget's measure of its own payload with the node's handle and the available size; every other kind returns exactly the coordinator's default measure of the node |
| Kinds.ArrangeOverride | src/gui/node.rs:57-66 | each container kind returns its own widget's arrange of its own payload with the node's handle and the final size; every other kind returns exactly the coordinator's default arrange of the node |
| Kinds.MeasureReadsOnlySelectedHandler | src/gui/node.rs:46-55 | the measured size depends only on the handler the route selects; every other override and the default may be replaced |
| Kinds.ArrangeReadsOnlySelectedHandler | src/gui/node.rs:57-66 | the arranged size depends only on the handler the route selects |
| Kinds.Draw | src/gui/node.rs:34-43 | Text, Border and Image become their own draw body's updated payload and append exactly that body's commands; drawing never changes a kind's variant; a kind that does not draw is unchanged and emits no commands |
| Kinds.DrawReadsOnlySelectedHandler | src/gui/node.rs:35-42 | the drawn result depends only on the draw body of the node's own kind |
| Node.SameExceptKeepsOthers | src/gui/node.rs:87-130 | when a node changes in at most one field, every other field of the record keeps its value |
| Node.FieldsDetermineNode | src/gui/node.rs:87-130 | the field list covers the whole record: a node whose one free field is also unchanged is the same node |
| Node.New | src/gui/node.rs:161-189 | a new node has auto width/height, min size (0,0), unbounded max size, white color, Stretch alignments, zero margin, Visible, row/column 0, no children, parent NONE, both validity flags false, all positions and sizes zero, and the given kind |
| Node.NewNodesDifferOnlyInKind | src/gui/node.rs:161-189 | two new nodes differ only in their kind, and are equal iff their kinds are |
| Node.SetColor | src/gui/node.rs:191-194 | sets the color and changes no other field |
| Node.SetWidth | src/gui/node.rs:196-199 | sets the explicit width (or auto) and changes no other field |
| Node.SetHeight | src/gui/node.rs:201-204 | sets the explicit height (or auto) and changes no other field |
| Node.SetDesiredLocalPosition | src/gui/node.rs:206-209 | sets the desired local position and changes no other field |
| Node.SetVerticalAlignment | src/gui/node.rs:216-219 | sets the vertical alignment and changes no other field |
| Node.SetHorizontalAlignment | src/gui/node.rs:221-224 | sets the horizontal alignment and changes no other field |
| Node.SetKindThroughMut | src/gui/node.rs:226-229 | a write through the kind's mutable reference replaces the kind and nothing else |
| Node.SetVisibility | src/gui/node.rs:236-239 | sets the visibility and changes no other field |
| Node.VisibilityRoundTrip | src/gui/node.rs:236-244 | get_visibility after set_visibility(v) is v; setting the visibility already held leaves the node unchanged |
| Node.SettersKeepLayoutState | src/gui/node.rs:191-239 | a setter leaves both validity flags, the desired and actual sizes, the screen position and the kind as they were |
| Node.GetScreenBounds | src/gui/node.rs:231-234 | the screen bounds sit at the node's absolute screen position and have its arranged (actual) size |
| Node.ScreenBoundsFrame | src/gui/node.rs:231-234 | nodes that agree on screen position and actual size have the same screen bounds |
| Node.IsScrollBar | src/gui/node.rs:135-140 | is_scroll_bar (generated at line 246) holds exactly when the node's kind tag is ScrollBar, whatever its payload |
| Node.IsText | src/gui/node.rs:135-140 | is_text (generated at line 247) holds exactly when the node's kind tag is Text, whatever its payload |
| Node.IsBorder | src/gui/node.rs:135-140 | is_border (generated at line 248) holds exactly when the node's kind tag is Border, whatever its payload |
| Node.IsButton | src/gui/node.rs:135-140 | is_button (generated at line 249) holds exactly when the node's kind tag is Button, whatever its payload |
| Node.IsScrollViewer | src/gui/node.rs:135-140 | is_scroll_viewer (generated at line 250) holds exactly when the node's kind tag is ScrollViewer, whatever its payload |
| Node.IsImage | src/gui/node.rs:135-140 | is_image (generated at line 251) holds exactly when the node's kind tag is Image, whatever its payload |
| Node.IsCanvas | src/gui/node.rs:135-140 | is_canvas (generated at line 252) holds exactly when the node's kind tag is Canvas, whatever its payload |
| Node.IsScrollContentPresenter | src/gui/node.rs:135-140 | is_scroll_content_presenter (generated at line 253) holds exactly when the node's kind tag is ScrollContentPresenter, whatever its payload |
| Node.IsWindow | src/gui/node.rs:135-140 | is_window (generated at line 255) holds exactly when the node's kind tag is Window, whatever its payload |
| Node.GeneratedChecksMatchTag | src/gui/node.rs:246-255 | each generated is_X holds iff the tag is X; at most one holds; one holds iff the kind has a generated accessor; none holds for Grid or User |
| Node.AsScrollBar | src/gui/node.rs:143-148 | defined exactly when is_scroll_bar holds; returns the node's own ScrollBar payload |
| Node.AsText | src/gui/node.rs:143-148 | defined exactly when is_text holds; returns the node's own Text payload |
| Node.AsBorder | src/gui/node.rs:143-148 | defined exactly when is_border holds; returns the node's own Border payload |
| Node.AsButton | src/gui/node.rs:143-148 | defined exactly when is_button holds; returns the node's own Button payload |
| Node.AsScrollViewer | src/gui/node.rs:143-148 | defined exactly when is_scroll_viewer holds; returns the node's own ScrollViewer payload |
| Node.AsImage | src/gui/node.rs:143-148 | defined exactly when is_image holds; returns the node's own Image payload |
| Node.AsCanvas | src/gui/node.rs:143-148 | defined exactly when is_canvas holds; returns the node's own Canvas payload |
| Node.AsScrollContentPresenter | src/gui/node.rs:143-148 | defined exactly when is_scroll_content_presenter holds; returns the node's own payload |
| Node.AsWindow | src/gui/node.rs:143-148 | defined exactly when is_window holds; returns the node's own Window payload |
| Node.WithScrollBar | src/gui/node.rs:150-156 | writing through as_scroll_bar_mut keeps the node a ScrollBar, reads back the written payload, and changes nothing outside the kind |
| Node.WithText | src/gui/node.rs:150-156 | writing through as_text_mut keeps the node a Text, reads back the written payload, and changes nothing outside the kind |
| Node.WithBorder | src/gui/node.rs:150-156 | writing through as_border_mut keeps the node a Border, reads back the written payload, and changes nothing outside the kind |
| Node.WithButton | src/gui/node.rs:150-156 | writing through as_button_mut keeps the node a Button, reads back the written payload, and changes nothing outside the kind |
| Node.WithScrollViewer | src/gui/node.rs:150-156 | writing through as_scroll_viewer_mut keeps the node a ScrollViewer, reads back the written payload, and changes nothing outside the kind |
| Node.WithImage | src/gui/node.rs:150-156 | writing through as_image_mut keeps the node an Image, reads back the written payload, and changes nothing outside the kind |
| Node.WithCanvas | src/gui/node.rs:150-156 | writing through as_canvas_mut keeps the node a Canvas, reads back the written payload, and changes nothing outside the kind |
| Node.WithScrollContentPresenter | src/gui/node.rs:150-156 | writing through as_scroll_content_presenter_mut keeps the variant, reads back the written payload, and changes nothing outside the kind |
| Node.WithWindow | src/gui/node.rs:150-156 | writing through as_window_mut keeps the node a Window, reads back the written payload, and changes nothing outside the kind |
| Node.DowncastWriteBackIsIdentity | src/gui/node.rs:143-156 | writing back the payload a downcast returned leaves the node unchanged, for all nine accessors |
| Node.GetKindId | src/gui/node.rs:257-272 | total over all eleven kinds: a built-in id naming the node's own variant for built-in kinds, the boxed value's dynamic type for User |
| Node.KindIdIdentifiesVariant | src/gui/node.rs:257-272 | equal kind ids imply the same variant; built-in nodes of the same variant have equal ids |
| Node.EmitEvent | src/gui/node.rs:275-291 | for each of the eleven kinds, the node's payload becomes what that kind's own emitter returns and the event is that emitter's event; the variant never changes and nothing outside the kind moves |
| Node.EmitReadsOnlyOwnSource | src/gui/node.rs:276-290 | the emitted event and updated node depend only on the emit_event body of the node's own kind |
| Node.NodeMeasureOverride | src/gui/node.rs:293-296 | a node's measure is its kind's measure, hence the coordinator default for non-container kinds |
| Node.NodeArrangeOverride | src/gui/node.rs:298-300 | a node's arrange is its kind's arrange, hence the coordinator default for non-container kinds |
| Edits.Apply | src/gui/node.rs:191-239 | one setter call writes its value into its own field and changes no other field |
| Edits.ApplyAllFrame | src/gui/node.rs:191-239 | after any sequence of setter calls, a field none of them writes keeps its value |
| Edits.EditsKeepValidity | src/gui/node.rs:191-239 | no sequence of setter calls changes measure_valid or arrange_valid |
| Edits.EditsKeepKind | src/gui/node.rs:191-239 | no sequence of setter calls changes the node's kind |
| Edits.EditsKeepLinks | src/gui/node.rs:191-239 | no sequence of setter calls changes the children or the parent |
| Edits.EditsKeepScreenBounds | src/gui/node.rs:231-234 | no sequence of setter calls moves the node's screen bounds |
| Edits.EditedNewNodeStaysDetached | src/gui/node.rs:161-189 | a new node stays a parentless, childless, unmeasured node of its kind under any setter calls |
| Edits.VisibilityIsLastSet | src/gui/node.rs:236-244 | after any sequence of setter calls, get_visibility returns the value of the last set_visibility, or the original when there was none |
| Edits.LastVisibilityWins | src/gui/node.rs:236-244 | get_visibility right after set_visibility(v) returns v, whatever calls came before |

## Left out

- The widget bodies are not modelled: the draw, measure, arrange and emit_event of Text, Border, Button, ScrollBar, ScrollViewer, Image, Grid, Canvas, ScrollContentPresenter, Window and user kinds. Their files are not part of this model. They enter as function parameters.
- `UserInterface::default_measure_override` and `default_arrange_override` are defined outside this file. They enter as the `coordinatorDefault` parameter, which also stands in for the `&UserInterface` the overrides receive.
- f32 semantics are not modelled. NaN for "auto" becomes `None`, INFINITY becomes `Unbounded`, and vectors hold reals. No IEEE arithmetic or comparison is modelled.
- `Cell` interior mutability is not modelled. Cell-wrapped fields are plain record fields. `set_desired_local_position` takes `&self` in the source; here it is a functional update like the other setters.
- `DrawingContext` is not modelled. `Kinds.Draw` returns the commands a draw body emits rather than appending them to a context. The `command_indices` and `is_mouse_over` fields are carried but no operation in this file reads or writes them.
- `TypeId` and `Any` reflection are reduced to a `TypeId` datatype. Built-in kinds get one id per variant. A user kind's id comes from a parameter giving the boxed value's dynamic type. The model assumes a user id never coincides with a built-in id.
- `CustomUINodeKind::set_owner_handle` (src/gui/node.rs:12-14) is a trait method that user kinds implement elsewhere. No code in this file calls it.
- The boxed `UIEventHandler` is an opaque `EventHandler` value. The node's `name` has no setter in this file and is only defaulted.
- `Handle` is reduced to the `NONE` sentinel and an index/generation pair. Pool allocation and generation checks live in another file.
- The `as_X` and `as_X_mut` downcasts panic on a kind mismatch. This is modelled as the precondition `requires IsX(n)`, not as a recoverable error.
- `as_X_mut` hands out a mutable reference. It is modelled as the pair `AsX` (read the payload) and `WithX` (write a payload back).
- `get_kind` and `get_kind_mut` hand out references. `Node.GetKind` reads the kind, and `Node.SetKindThroughMut` models a write through the mutable reference.
