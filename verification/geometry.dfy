/** Value types shared by every node: vectors, rectangles, margins, alignment
    and visibility enumerations, colors, and the two float sentinels of the
    node record (NaN for an automatic size, infinity for an unbounded size). */
module Geometry {
  import opened Wrappers

  /** A 2D vector. Components are reals: nothing in a node's record does
      arithmetic on them, so the f32 representation is not modelled. */
  datatype Vec2 = Vec2(x: real, y: real)

  const ZeroVec2: Vec2 := Vec2(0.0, 0.0)

  /** An axis-aligned rectangle given by its top-left corner and its size. */
  datatype Rect = Rect(x: real, y: real, w: real, h: real)

  /** Margin on four sides. */
  datatype Thickness = Thickness(left: real, top: real, right: real, bottom: real)

  const ZeroThickness: Thickness := Thickness(0.0, 0.0, 0.0, 0.0)

  datatype HorizontalAlignment = HStretch | Left | HCenter | Right

  datatype VerticalAlignment = VStretch | Top | VCenter | Bottom

  datatype Visibility = Visible | Collapsed | Hidden

  type Byte = x: int | 0 <= x < 256

  /** RGBA color with one byte per channel. */
  datatype Color = Color(r: Byte, g: Byte, b: Byte, a: Byte)

  const White: Color := Color(255, 255, 255, 255)

  /** An explicit width or height: `None` stands for the NaN sentinel, which
      asks the layout to size the node automatically. */
  type Length = Option<real>

  const Auto: Length := None

  /** One component of a maximum size: `Unbounded` stands for f32 infinity. */
  datatype Bound = Finite(value: real) | Unbounded

  /** A maximum size, one bound per axis. */
  datatype MaxSize = MaxSize(x: Bound, y: Bound)

  const UnboundedSize: MaxSize := MaxSize(Unbounded, Unbounded)
}
